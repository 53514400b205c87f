/** The generator of obfuscation parameters and the validator that guards every saved set of them. */
module Obfuscation {
  import opened Options
  import opened Text
  import opened Numbers

  const UINT16_MAX := 0xFFFF
  const UINT32_MAX := 0xFFFF_FFFF
  const H_MAX := 0x7FFF_FFFF

  datatype Obfuscation31 = Obfuscation31(
    jc: int, jmin: int, jmax: int, s1: int, s2: int, s3: int, s4: int,
    h1: string, h2: string, h3: string, h4: string,
    i1: string, i2: string, i3: string, i4: string, i5: string,
    headerProtectionKey: string, contentPaddingAddition: string,
    rekeyAfterTime: string, rekeyTimeout: string, rejectAfterTime: string,
    keepaliveTimeout: string, maxHandshakeAttempts: string,
    randomTrailers: bool, disableCookies: bool)

  // ---------- Ranges ----------

  datatype Range = Range(lo: int, hi: int)

  /** "N", or "low-high" cut at the first hyphen; None when blank or not numeric. */
  function ParseRange(v: string): Option<Range> {
    var t := Trim(v);
    if t == "" then None
    else
      var cut := Find(t, "-", 0);
      if cut <= |t| then
        var l, h := ParseInt(Trim(t[..cut])), ParseInt(Trim(t[cut + 1..]));
        if l.None? || h.None? then None else Some(Range(l.value, h.value))
      else
        var n := ParseInt(t);
        if n.None? then None else Some(Range(n.value, n.value))
  }

  predicate HasControl(v: string) { exists k :: 0 <= k < |v| && (v[k] < ' ' || v[k] == '\U{7F}') }

  predicate ValidRange(v: string, minAllowed: int) {
    || Trim(v) == ""
    || (!HasControl(v)
        && var r := ParseRange(v); r.Some? && minAllowed <= r.value.lo <= r.value.hi <= UINT32_MAX)
  }

  function PrintRange(lo: nat, hi: nat): string { Itoa(lo) + "-" + Itoa(hi) }

  lemma DigitsHaveNoHyphen(s: string)
    requires AllDigits(s)
    ensures Find(s, "-", 0) > |s| && !HasControl(s)
  {
    FindChar(s, '-', 0);
    assert forall k :: 0 <= k < |s| ==> s[k] != '-';
  }

  /** A printed number is read back as a range of one. */
  lemma PrintedNumber(n: nat)
    requires n <= INT64_MAX
    ensures ParseRange(Itoa(n)) == Some(Range(n, n)) && !HasControl(Itoa(n))
  {
    PrintedIsTrimmed(n);
    PrintedValue(n);
    DigitsHaveNoHyphen(Itoa(n));
    ParsePrinted(n);
  }

  lemma FindHyphen(l: string, h: string)
    requires AllDigits(l)
    ensures var v := l + "-" + h; Find(v, "-", 0) == |l| && v[..|l|] == l && v[|l| + 1..] == h
  {
    var v := l + "-" + h;
    forall k | 0 <= k < |l| ensures v[k] != '-' { assert v[k] == l[k]; }
    FirstChar(v, '-', |l|);
  }

  lemma HyphenatedIsClean(l: string, h: string)
    requires AllDigits(l) && AllDigits(h) && l != "" && h != ""
    ensures Trim(l + "-" + h) == l + "-" + h && !HasControl(l + "-" + h)
  {
    var v := l + "-" + h;
    forall k | 0 <= k < |v| ensures v[k] == '-' || IsDigit(v[k]) {
      if k < |l| { assert v[k] == l[k]; } else if k > |l| { assert v[k] == h[k - |l| - 1]; }
    }
    TrimmedStays(v);
  }

  /** A printed range is read back. */
  lemma PrintedRange(lo: nat, hi: nat)
    requires lo <= INT64_MAX && hi <= INT64_MAX
    ensures ParseRange(PrintRange(lo, hi)) == Some(Range(lo, hi)) && !HasControl(PrintRange(lo, hi))
  {
    var l, h := Itoa(lo), Itoa(hi);
    var v := l + "-" + h;
    HyphenatedIsClean(l, h);
    FindHyphen(l, h);
    PrintedValue(lo);
    PrintedIsTrimmed(lo);
    PrintedIsTrimmed(hi);
    ParsePrinted(lo);
    ParsePrinted(hi);
  }

  /** Neither one of the 32 control characters nor the delete character. */
  predicate NoControl(v: string) { forall k :: 0 <= k < |v| ==> v[k] as int >= 32 && v[k] as int != 127 }

  lemma ControlIs(v: string)
    ensures NoControl(v) <==> !HasControl(v)
  {
  }

  /** A field without a hyphen is valid if it is blank, or the number of a value within the bounds, but for white space and
      without control characters. */
  lemma NumberIsValid(v: string, minAllowed: int)
    requires '-' !in Trim(v)
    ensures ValidRange(v, minAllowed) <==>
      Trim(v) == "" || (NoControl(v) && ParseInt(Trim(v)).Some? && minAllowed <= ParseInt(Trim(v)).value <= 4294967295)
  {
    ControlIs(v);
    FindChar(Trim(v), '-', 0);
  }

  /** One with a hyphen is valid if both sides of the first one are such numbers, the first not above the second. */
  lemma RangeIsValid(v: string, minAllowed: int, x: string, y: string)
    requires Trim(v) == x + "-" + y && '-' !in x
    ensures ValidRange(v, minAllowed) <==>
      var lo, hi := ParseInt(Trim(x)), ParseInt(Trim(y));
      NoControl(v) && lo.Some? && hi.Some? && minAllowed <= lo.value <= hi.value <= 4294967295
  {
    ControlIs(v);
    HyphenParts(v, x, y);
  }

  lemma HyphenParts(v: string, x: string, y: string)
    requires Trim(v) == x + "-" + y && '-' !in x
    ensures var l, h := ParseInt(Trim(x)), ParseInt(Trim(y));
      ParseRange(v) == if l.None? || h.None? then None else Some(Range(l.value, h.value))
    ensures Trim(v) != ""
  {
    var t := Trim(v);
    FirstChar(t, '-', |x|);
    assert t[..|x|] == x && t[|x| + 1..] == y;
  }

  // ---------- Signature packets ----------

  const CHAIN_TAGS: set<string> := {"b", "t", "r", "rc", "rd", "d", "ds", "dz"}

  function FieldEnd(s: string, i: nat): (r: nat)
    requires i <= |s|
    ensures i <= r <= |s|
    decreases |s| - i
  {
    if i < |s| && !IsSpace(s[i]) then FieldEnd(s, i + 1) else i
  }

  /** The first of strings.Fields(s), or "" if there is none. */
  function FirstField(s: string): string { s[Lead(s, 0)..FieldEnd(s, Lead(s, 0))] }

  /** Every "<" opens a tag that is closed, not blank and known. */
  predicate ChainFrom(s: string)
    decreases |s|
  {
    FindChar(s, '<', 0);
    var start := Find(s, "<", 0);
    start > |s| ||
    (FindChar(s, '>', start);
     var end := Find(s, ">", start);
     end <= |s| && FirstField(s[start + 1..end]) in CHAIN_TAGS && ChainFrom(s[end + 1..]))
  }

  predicate ChainOk(spec: string) { Trim(spec) == "" || ChainFrom(spec) }

  /** The first tag of a chain: whether it is closed and known, and where the text goes on. */
  method ValidateTag(s: string, start: nat) returns (ok: bool, next: nat)
    requires start == Find(s, "<", 0) && start <= |s|
    ensures ok ==> 0 < next <= |s| && (ChainFrom(s) <==> ChainFrom(s[next..]))
    ensures !ok ==> !ChainFrom(s)
  {
    FindChar(s, '<', 0);
    FindChar(s, '>', start);
    var end := Find(s, ">", start);
    ok, next := false, 0;
    if end <= |s| { ok, next := FirstField(s[start + 1..end]) in CHAIN_TAGS, end + 1; }
  }

  method ValidateChain(spec: string) returns (ok: bool)
    ensures ok <==> ChainOk(spec)
  {
    ok := true;
    if Trim(spec) != "" {
      var remaining := spec;
      var start := Find(remaining, "<", 0);
      while ok && start <= |remaining|
        invariant start == Find(remaining, "<", 0)
        invariant if ok then ChainFrom(remaining) <==> ChainFrom(spec) else !ChainFrom(spec)
        decreases |remaining|, ok
      {
        var next;
        ok, next := ValidateTag(remaining, start);
        if ok {
          remaining := remaining[next..];
          start := Find(remaining, "<", 0);
        }
      }
    }
  }

  // ---------- The validator ----------

  /** What is wrong with a set of parameters. */
  datatype Problem = JminOverJmax | BadCount(name: string) | BadChain(i: nat) | BadPadding(i: nat) | SameSizes | BadHeader(i: nat)
    | BadKey | ThinPadding(i: nat) | BadTiming(name: string) | RekeyTooLate

  /** The latest rekey and the earliest reject; WireGuard's own 120 s and 180 s where the field is empty. */
  function LatestRekey(o: Obfuscation31): int {
    if o.rekeyAfterTime == "" then 120 else var r := ParseRange(o.rekeyAfterTime); if r.Some? then r.value.hi else 0
  }

  function EarliestReject(o: Obfuscation31): int {
    if o.rejectAfterTime == "" then 180 else var r := ParseRange(o.rejectAfterTime); if r.Some? then r.value.lo else 0
  }

  function CountProblem(o: Obfuscation31): Option<Problem> {
    if o.jmin > o.jmax then Some(JminOverJmax)
    else if !(0 <= o.jc <= UINT32_MAX) then Some(BadCount("Jc"))
    else if !(0 <= o.jmin <= UINT32_MAX) then Some(BadCount("Jmin"))
    else if !(0 <= o.jmax <= UINT32_MAX) then Some(BadCount("Jmax"))
    else if !(0 <= o.s1 <= UINT16_MAX) then Some(BadCount("S1"))
    else if !(0 <= o.s2 <= UINT16_MAX) then Some(BadCount("S2"))
    else None
  }

  function PacketProblem(o: Obfuscation31): Option<Problem> {
    if !ChainOk(o.i1) then Some(BadChain(1))
    else if !ChainOk(o.i2) then Some(BadChain(2))
    else if !ChainOk(o.i3) then Some(BadChain(3))
    else if !ChainOk(o.i4) then Some(BadChain(4))
    else if !ChainOk(o.i5) then Some(BadChain(5))
    else if !(0 <= o.s3 <= 64) then Some(BadPadding(3))
    else if !(0 <= o.s4 <= 32) then Some(BadPadding(4))
    else if o.s1 + 56 == o.s2 then Some(SameSizes)
    else if !ValidRange(o.h1, 0) then Some(BadHeader(1))
    else if !ValidRange(o.h2, 0) then Some(BadHeader(2))
    else if !ValidRange(o.h3, 0) then Some(BadHeader(3))
    else if !ValidRange(o.h4, 0) then Some(BadHeader(4))
    else None
  }

  function KeyProblem(o: Obfuscation31, keys: string -> bool): Option<Problem> {
    if o.headerProtectionKey == "" then None
    else if !keys(o.headerProtectionKey) then Some(BadKey)
    else if o.s1 < 12 then Some(ThinPadding(1))
    else if o.s2 < 12 then Some(ThinPadding(2))
    else if o.s3 < 12 then Some(ThinPadding(3))
    else if o.s4 < 12 then Some(ThinPadding(4))
    else None
  }

  function TimingProblem(o: Obfuscation31): Option<Problem> {
    if !ValidRange(o.contentPaddingAddition, 0) then Some(BadTiming("contentPaddingAddition"))
    else if !ValidRange(o.rekeyAfterTime, 1) then Some(BadTiming("rekeyAfterTime"))
    else if !ValidRange(o.rekeyTimeout, 1) then Some(BadTiming("rekeyTimeout"))
    else if !ValidRange(o.rejectAfterTime, 1) then Some(BadTiming("rejectAfterTime"))
    else if !ValidRange(o.keepaliveTimeout, 1) then Some(BadTiming("keepaliveTimeout"))
    else if !ValidRange(o.maxHandshakeAttempts, 1) then Some(BadTiming("maxHandshakeAttempts"))
    else if (o.rekeyAfterTime != "" || o.rejectAfterTime != "") && LatestRekey(o) >= EarliestReject(o) then Some(RekeyTooLate)
    else None
  }

  function OrElse(p: Option<Problem>, q: Option<Problem>): Option<Problem> { if p.Some? then p else q }

  /** The first problem of a set, if any; `keys` holds of the texts that decode to a 32-byte key without control characters. */
  function Validate(o: Obfuscation31, keys: string -> bool): Option<Problem> {
    OrElse(CountProblem(o), OrElse(PacketProblem(o), OrElse(KeyProblem(o, keys), TimingProblem(o))))
  }

  lemma NoProblem(o: Obfuscation31, keys: string -> bool)
    ensures Validate(o, keys) == None <==>
      CountProblem(o) == None && PacketProblem(o) == None && KeyProblem(o, keys) == None && TimingProblem(o) == None
  {
  }

  predicate SizesOk(o: Obfuscation31) {
    && 0 <= o.jc <= 4294967295 && 0 <= o.jmin <= o.jmax <= 4294967295
    && 0 <= o.s1 <= 65535 && 0 <= o.s2 <= 65535 && 0 <= o.s3 <= 64 && 0 <= o.s4 <= 32
    && o.s1 + 56 != o.s2
    && (o.headerProtectionKey != "" ==> o.s1 >= 12 && o.s2 >= 12 && o.s3 >= 12 && o.s4 >= 12)
  }

  predicate TextsOk(o: Obfuscation31) {
    && ChainOk(o.i1) && ChainOk(o.i2) && ChainOk(o.i3) && ChainOk(o.i4) && ChainOk(o.i5)
    && ValidRange(o.h1, 0) && ValidRange(o.h2, 0) && ValidRange(o.h3, 0) && ValidRange(o.h4, 0)
  }

  /** The ranges of the last part; if a time is given the latest rekey is before the earliest reject, where a time not given
      is WireGuard's default, and one that is blank without being empty is taken for 0. */
  predicate TimesOk(o: Obfuscation31) {
    && ValidRange(o.contentPaddingAddition, 0)
    && ValidRange(o.rekeyAfterTime, 1) && ValidRange(o.rekeyTimeout, 1) && ValidRange(o.rejectAfterTime, 1)
    && ValidRange(o.keepaliveTimeout, 1) && ValidRange(o.maxHandshakeAttempts, 1)
    && (o.rekeyAfterTime != "" || o.rejectAfterTime != "" ==>
          (if BlankNotEmpty(o.rekeyAfterTime) then 0 else RekeyBy(o)) < if BlankNotEmpty(o.rejectAfterTime) then 0 else RejectFrom(o))
  }

  /** What the validator takes: sizes within the bounds of the device, no two handshake packets of one size, padding for the
      nonce under every size if headers are protected, chains and ranges that parse, a key that decodes, and, where either
      of the two times is given, a latest rekey before the earliest reject. */
  lemma ValidExactly(o: Obfuscation31, keys: string -> bool)
    ensures Validate(o, keys) == None <==>
      SizesOk(o) && TextsOk(o) && (o.headerProtectionKey != "" ==> keys(o.headerProtectionKey)) && TimesOk(o)
  {
    NoProblem(o, keys);
    PacketsExactly(o);
    TimingExactly(o);
    CountsAndKey(o, keys);
  }

  lemma CountsAndKey(o: Obfuscation31, keys: string -> bool)
    ensures CountProblem(o) == None && KeyProblem(o, keys) == None && o.s1 + 56 != o.s2 && 0 <= o.s3 <= 64 && 0 <= o.s4 <= 32 <==>
      SizesOk(o) && (o.headerProtectionKey != "" ==> keys(o.headerProtectionKey))
  {
  }

  lemma PacketsExactly(o: Obfuscation31)
    ensures PacketProblem(o) == None <==> TextsOk(o) && 0 <= o.s3 <= 64 && 0 <= o.s4 <= 32 && o.s1 + 56 != o.s2
  {
  }

  lemma TimingExactly(o: Obfuscation31)
    ensures TimingProblem(o) == None <==> TimesOk(o)
  {
    BlankIsUnread(o.rekeyAfterTime);
    BlankIsUnread(o.rejectAfterTime);
  }

  /** The latest rekey and the earliest reject when any blank text means WireGuard's default. */
  function RekeyBy(o: Obfuscation31): int
    requires ValidRange(o.rekeyAfterTime, 1)
  {
    if Trim(o.rekeyAfterTime) == "" then 120 else ParseRange(o.rekeyAfterTime).value.hi
  }

  function RejectFrom(o: Obfuscation31): int
    requires ValidRange(o.rejectAfterTime, 1)
  {
    if Trim(o.rejectAfterTime) == "" then 180 else ParseRange(o.rejectAfterTime).value.lo
  }

  lemma ValidTimes(o: Obfuscation31, keys: string -> bool)
    requires Validate(o, keys) == None
    ensures ValidRange(o.rekeyAfterTime, 1) && ValidRange(o.rejectAfterTime, 1)
    ensures o.rekeyAfterTime != "" || o.rejectAfterTime != "" ==> LatestRekey(o) < EarliestReject(o)
  {
    assert TimingProblem(o) == None;
  }

  predicate BlankNotEmpty(v: string) { v != "" && Trim(v) == "" }

  /** A valid set renews before it expires, except exactly when the rekey time is blank without being empty, which
      the last check takes for 0 instead of the default, and the reject time is not above that default. */
  lemma ValidRenewsInTime(o: Obfuscation31, keys: string -> bool)
    requires Validate(o, keys) == None
    ensures ValidRange(o.rekeyAfterTime, 1) && ValidRange(o.rejectAfterTime, 1)
    ensures RekeyBy(o) < RejectFrom(o) <==> !(BlankNotEmpty(o.rekeyAfterTime) && RejectFrom(o) <= 120)
  {
    ValidTimes(o, keys);
    BlankIsUnread(o.rekeyAfterTime);
    BlankIsUnread(o.rejectAfterTime);
  }

  lemma BlankIsUnread(v: string)
    ensures v == "" ==> Trim(v) == ""
    ensures Trim(v) == "" ==> ParseRange(v) == None
    ensures ValidRange(v, 1) && Trim(v) != "" ==> ParseRange(v).Some? && ParseRange(v).value.lo >= 1
  {
  }

  /** A pasted value as it is stored: trimmed, without spaces. */
  function WithoutSpaces(v: string): string {
    if v == "" then "" else (if v[0] == ' ' then "" else [v[0]]) + WithoutSpaces(v[1..])
  }

  function Canonical(v: string): string { WithoutSpaces(Trim(v)) }

  /** The stored form of a value is never blank without being empty, so stored sets always renew in time. */
  lemma CanonicalIsNotBlank(v: string)
    ensures !BlankNotEmpty(Canonical(v))
  {
    TrimIsTrimmed(v);
    var t := Trim(v);
    if t != "" {
      var c := Canonical(v);
      assert c[0] == t[0];
      assert Lead(c, 0) == 0;
      NotBlank(c);
    }
  }

  /** Removing spaces removes exactly the space characters. */
  lemma {:induction false} SpacesGo(x: string)
    ensures ' ' !in WithoutSpaces(x) && (' ' !in x ==> WithoutSpaces(x) == x)
    ensures forall c :: c in WithoutSpaces(x) ==> c in x
  {
    if x != "" {
      SpacesGo(x[1..]);
      assert x == [x[0]] + x[1..];
    }
  }

  lemma {:induction false} SpacesGoFrom(x: string, y: string)
    ensures WithoutSpaces(x + y) == WithoutSpaces(x) + WithoutSpaces(y)
  {
    if x == "" {
      assert x + y == y;
    } else {
      SpacesGoFrom(x[1..], y);
      assert (x + y)[1..] == x[1..] + y && (x + y)[0] == x[0];
      var head := if x[0] == ' ' then "" else [x[0]];
      assert head + (WithoutSpaces(x[1..]) + WithoutSpaces(y)) == head + WithoutSpaces(x[1..]) + WithoutSpaces(y);
    }
  }

  /** A text around whose white space something stands that has no space keeps that. */
  lemma SpacesAround(x: string)
    requires ' ' !in Trim(x)
    ensures Trim(WithoutSpaces(x)) == Trim(x)
  {
    var l, r := TrimParts(x);
    var t := Trim(x);
    SpacesGoFrom(l + t, r);
    SpacesGoFrom(l, t);
    SpacesGo(l);
    SpacesGo(t);
    SpacesGo(r);
    BlankAround(WithoutSpaces(l), t, WithoutSpaces(r));
  }

  lemma BlankAround(l: string, t: string, r: string)
    requires Trimmed(t) && Blank(l) && Blank(r)
    ensures Trim(l + t + r) == t
  {
    var s := l + t + r;
    forall k | 0 <= k < |l| ensures IsSpace(s[k]) { assert s[k] == l[k]; }
    forall k | |l| + |t| <= k < |s| ensures IsSpace(s[k]) { assert s[k] == r[k - |l| - |t|]; }
    if t == "" {
      assert Lead(s, 0) == |s|;
    } else {
      assert s[|l|] == t[0] && s[|l| + |t| - 1] == t[|t| - 1];
      assert Lead(s, 0) == |l| && Tail(s, |l|, |s|) == |l| + |t|;
      assert s[|l|..|l| + |t|] == t;
    }
  }

  lemma NumberHasNoSpace(x: string)
    requires ParseInt(x).Some?
    ensures ' ' !in x
  {
    ParseRefuses(x);
  }

  lemma NumberReadsSame(v: string)
    requires ParseRange(v).Some? && '-' !in Trim(v)
    ensures ParseRange(Canonical(v)) == ParseRange(v)
  {
    var t := Trim(v);
    FindChar(t, '-', 0);
    NumberHasNoSpace(t);
    SpacesGo(t);
    TrimIsTrimmed(v);
    TrimmedStays(t);
  }

  /** The stored form of a value that reads as a number or a range reads as the same one. */
  lemma CanonicalReadsSame(v: string)
    requires ParseRange(v).Some?
    ensures ParseRange(Canonical(v)) == ParseRange(v)
  {
    if '-' in Trim(v) {
      var x, y := CutAtFirst(Trim(v), '-');
      HyphenParts(v, x, y);
      CanonicalRange(x, y);
    } else {
      NumberReadsSame(v);
    }
  }

  lemma CanonicalRange(x: string, y: string)
    requires '-' !in x && ParseInt(Trim(x)).Some? && ParseInt(Trim(y)).Some?
    ensures ParseRange(WithoutSpaces(x + "-" + y)) == Some(Range(ParseInt(Trim(x)).value, ParseInt(Trim(y)).value))
  {
    SpacesGoFrom(x + "-", y);
    SpacesGoFrom(x, "-");
    SpacesGo(x);
    SpacesGo("-");
    NumberHasNoSpace(Trim(x));
    NumberHasNoSpace(Trim(y));
    SpacesAround(x);
    SpacesAround(y);
    RangeReads(WithoutSpaces(x), WithoutSpaces(y));
  }

  lemma RangeReads(x: string, y: string)
    requires '-' !in x && ParseInt(Trim(x)).Some? && ParseInt(Trim(y)).Some?
    ensures ParseRange(x + "-" + y) == Some(Range(ParseInt(Trim(x)).value, ParseInt(Trim(y)).value))
  {
    var l, r := TrimOfRange(x, y);
    HyphenParts(x + "-" + y, l, r);
  }

  predicate Blank(s: string) { forall c :: c in s ==> IsSpace(c) }

  lemma TrimParts(x: string) returns (l: string, r: string)
    ensures x == l + Trim(x) + r && Blank(l) && Blank(r) && Trimmed(Trim(x))
  {
    var a := Lead(x, 0);
    var b := Tail(x, a, |x|);
    l, r := x[..a], x[b..];
    TrimIsTrimmed(x);
  }

  lemma RegroupRange(a: string, t: string, b: string, c: string, u: string, d: string)
    ensures (a + t + b) + "-" + (c + u + d) == a + ((t + b) + "-" + (c + u)) + d
  {
  }

  lemma BlankBehind(t: string, b: string)
    requires Trimmed(t) && Blank(b)
    ensures Trim(t + b) == t && Trim(b + t) == t
  {
    BlankAround("", t, b);
    BlankAround(b, t, "");
    assert "" + t + b == t + b && b + t + "" == b + t;
  }

  lemma TrimJoined(a: string, t: string, b: string, c: string, u: string, d: string)
    requires t != "" && u != "" && Trimmed(t) && Trimmed(u) && Blank(a) && Blank(d)
    ensures Trim((a + t + b) + "-" + (c + u + d)) == (t + b) + "-" + (c + u)
  {
    RegroupRange(a, t, b, c, u, d);
    EndsOfRange(t, b, c, u);
    BlankAround(a, (t + b) + "-" + (c + u), d);
  }

  lemma NotInPart(a: string, t: string, b: string, c: char)
    requires c !in a + t + b
    ensures c !in t + b
  {
    assert a + t + b == a + (t + b);
    forall k | 0 <= k < |t + b| ensures (t + b)[k] != c { assert (a + (t + b))[|a| + k] == (t + b)[k]; }
  }

  /** Trimming a range trims it outside. */
  lemma TrimOfRange(x: string, y: string) returns (l: string, r: string)
    requires '-' !in x && Trim(x) != "" && Trim(y) != ""
    ensures Trim(x + "-" + y) == l + "-" + r && Trim(l) == Trim(x) && Trim(r) == Trim(y) && '-' !in l
  {
    var a, b := TrimParts(x);
    var c, d := TrimParts(y);
    l, r := Trim(x) + b, c + Trim(y);
    TrimJoined(a, Trim(x), b, c, Trim(y), d);
    BlankBehind(Trim(x), b);
    BlankBehind(Trim(y), c);
    NotInPart(a, Trim(x), b, '-');
  }

  lemma EndsOfRange(t: string, b: string, c: string, u: string)
    requires t != "" && u != "" && Trimmed(t) && Trimmed(u)
    ensures Trimmed((t + b) + "-" + (c + u))
  {
    var v := (t + b) + "-" + (c + u);
    assert v[0] == t[0] && v[|v| - 1] == u[|u| - 1];
  }

  lemma NotBlank(s: string)
    requires s != "" && !IsSpace(s[0])
    ensures Trim(s) != ""
  {
    var b := Tail(s, 0, |s|);
    assert b > 0;
    assert Lead(s, 0) == 0;
  }

  // ---------- The generator ----------

  /** Any number the random source may give within the bounds. */
  method RandInt(min: int, max: int) returns (v: int)
    ensures if max <= min then v == min else min <= v <= max
  {
    if max <= min { return min; }
    v :| min <= v <= max;
  }

  /** The second padding size is drawn again while it would make the handshake packets equal in size. */
  method DrawS2(s1: int, redraws: nat -> int, ghost enough: nat) returns (s2: int)
    requires forall k :: 15 <= redraws(k) <= 150
    requires redraws(enough) != s1 + 56
    ensures 15 <= s2 <= 150 && s1 + 56 != s2
  {
    var k := 0;
    s2 := redraws(k);
    while s1 + 56 == s2
      invariant s2 == redraws(k) && k <= enough
      decreases enough - k
    {
      assert k != enough;
      k := k + 1;
      s2 := redraws(k);
    }
  }

  const BAND := (H_MAX - 5 + 1) / 4

  function BandLow(i: nat): nat { 5 + i * BAND }

  /** One value for each of the four headers, from bands that do not overlap. */
  method GenerateH() returns (out: array<string>, ghost values: seq<nat>)
    ensures fresh(out) && out.Length == 4 && |values| == 4 && forall i :: 0 <= i < 4 ==> out[i] == Itoa(values[i])
    ensures 5 <= values[0] < values[1] < values[2] < values[3] <= H_MAX
  {
    out := new string[4](_ => "");
    values := [];
    for i := 0 to 4
      invariant |values| == i && forall j :: 0 <= j < i ==> out[j] == Itoa(values[j])
      invariant forall j :: 0 <= j < i ==> BandLow(j) <= values[j] <= BandLow(j) + BAND - 1
    {
      var v := RandInt(BandLow(i), BandLow(i) + BAND - 1);
      out[i] := Itoa(v);
      values := values + [v];
    }
    assert BandLow(0) == 5 && BandLow(1) == 5 + BAND && BandLow(2) == 5 + 2 * BAND && BandLow(3) == 5 + 3 * BAND;
  }

  method DrawRange(lo: int, atLeast: int, atMost: int) returns (text: string, hi: int)
    requires lo >= 0 && 0 <= atLeast <= atMost && lo + atMost <= UINT32_MAX
    ensures lo + atLeast <= hi <= lo + atMost
    ensures text == PrintRange(lo, hi) && ParseRange(text) == Some(Range(lo, hi)) && ValidRange(text, lo)
  {
    var d := RandInt(atLeast, atMost);
    hi := lo + d;
    text := PrintRange(lo, hi);
    PrintedRange(lo, hi);
  }

  predicate IsH(h: string) { ParseRange(h).Some? && 5 <= ParseRange(h).value.lo == ParseRange(h).value.hi <= H_MAX }

  /** Four different headers, each one number that no plain WireGuard message uses. */
  predicate HeadersOk(o: Obfuscation31) {
    && IsH(o.h1) && IsH(o.h2) && IsH(o.h3) && IsH(o.h4)
    && ParseRange(o.h1).value.lo < ParseRange(o.h2).value.lo < ParseRange(o.h3).value.lo < ParseRange(o.h4).value.lo
  }

  /** Every reject time is at least 30 s after every rekey time. */
  predicate RenewsEarly(o: Obfuscation31) {
    var rekey, reject := ParseRange(o.rekeyAfterTime), ParseRange(o.rejectAfterTime);
    rekey.Some? && reject.Some? && rekey.value.hi + 30 <= reject.value.lo
  }

  /** The one signature packet that is generated: n random bytes. */
  function RandomTag(n: nat): string { "<r " + Itoa(n) + ">" }

  lemma RandomTagOk(n: nat)
    ensures ChainOk(RandomTag(n)) && ChainOk("")
  {
    var s := RandomTag(n);
    var digits := Itoa(n);
    var end := |s| - 1;
    forall k | 3 <= k < end ensures IsDigit(s[k]) { assert s[k] == digits[k - 3]; }
    FirstChar(s, '<', 0);
    TagEnd(s, end);
    TagName(s[1..end]);
    assert s[end + 1..] == "";
    FindChar("", '<', 0);
  }

  lemma TagName(inner: string)
    requires |inner| >= 2 && inner[0] == 'r' && inner[1] == ' '
    ensures FirstField(inner) == "r"
  {
    assert FieldEnd(inner, 0) == 1;
    assert inner[0..1] == "r";
  }

  lemma TagEnd(s: string, end: nat)
    requires end == |s| - 1 && s[end] == '>' && forall k :: 0 <= k < end ==> s[k] != '>'
    ensures Find(s, ">", 0) == end
  {
    FirstChar(s, '>', end);
  }

  predicate HeaderText(h: string, v: nat) { h == Itoa(v) && 5 <= v <= H_MAX }

  lemma HeaderTextOk(h: string, v: nat)
    requires HeaderText(h, v)
    ensures IsH(h) && ValidRange(h, 0) && ParseRange(h).value.lo == v
  {
    PrintedNumber(v);
  }

  predicate RangeText(text: string, lo: nat, hi: nat) { text == PrintRange(lo, hi) && 1 <= lo <= hi <= UINT32_MAX }

  lemma RangeTextOk(text: string, lo: nat, hi: nat)
    requires RangeText(text, lo, hi)
    ensures ValidRange(text, 0) && ValidRange(text, 1) && ParseRange(text) == Some(Range(lo, hi)) && text != ""
  {
    PrintedRange(lo, hi);
  }

  /** The numbers of a generated set, within the bounds they are drawn from. */
  predicate DrawnCounts(o: Obfuscation31) {
    && 3 <= o.jc <= 6 && 40 <= o.jmin <= 89 && o.jmin + 50 <= o.jmax <= o.jmin + 250
    && 15 <= o.s1 <= 150 && 15 <= o.s2 <= 150 && o.s1 + 56 != o.s2 && 12 <= o.s3 <= 55 && 12 <= o.s4 <= 27
  }

  predicate DrawnTexts(o: Obfuscation31) {
    && ChainOk(o.i1) && ChainOk(o.i2) && ChainOk(o.i3) && ChainOk(o.i4) && ChainOk(o.i5)
    && ValidRange(o.contentPaddingAddition, 0) && ValidRange(o.rekeyAfterTime, 1) && ValidRange(o.rekeyTimeout, 1)
    && ValidRange(o.rejectAfterTime, 1) && ValidRange(o.keepaliveTimeout, 1) && ValidRange(o.maxHandshakeAttempts, 1)
    && ValidRange(o.h1, 0) && ValidRange(o.h2, 0) && ValidRange(o.h3, 0) && ValidRange(o.h4, 0)
    && o.rekeyAfterTime != "" && o.rejectAfterTime != ""
  }

  lemma DrawnIsValid(o: Obfuscation31, keys: string -> bool)
    requires DrawnCounts(o) && DrawnTexts(o) && RenewsEarly(o)
    requires o.headerProtectionKey == "" || keys(o.headerProtectionKey)
    ensures Validate(o, keys) == None
  {
    DrawnNumbers(o, keys);
    DrawnPackets(o);
    DrawnTiming(o);
    var a, b, c, d := CountProblem(o), PacketProblem(o), KeyProblem(o, keys), TimingProblem(o);
    assert a == None && b == None && c == None && d == None;
  }

  lemma DrawnNumbers(o: Obfuscation31, keys: string -> bool)
    requires DrawnCounts(o) && (o.headerProtectionKey == "" || keys(o.headerProtectionKey))
    ensures CountProblem(o) == None && KeyProblem(o, keys) == None
  {
  }

  lemma DrawnPackets(o: Obfuscation31)
    requires DrawnCounts(o) && DrawnTexts(o)
    ensures PacketProblem(o) == None
  {
  }

  lemma DrawnTiming(o: Obfuscation31)
    requires DrawnTexts(o) && RenewsEarly(o)
    ensures TimingProblem(o) == None
  {
    assert LatestRekey(o) == ParseRange(o.rekeyAfterTime).value.hi && EarliestReject(o) == ParseRange(o.rejectAfterTime).value.lo;
  }

  method DrawCounts(redraws: nat -> int, ghost enough: nat)
    returns (jc: int, jmin: int, jmax: int, s1: int, s2: int, s3: int, s4: int)
    requires (forall k :: 15 <= redraws(k) <= 150) && redraws(enough) != redraws(0)
    ensures 3 <= jc <= 6 && 40 <= jmin <= 89 && jmin + 50 <= jmax <= jmin + 250
    ensures 15 <= s1 <= 150 && 15 <= s2 <= 150 && s1 + 56 != s2 && 12 <= s3 <= 55 && 12 <= s4 <= 27
  {
    jc := RandInt(3, 6);
    jmin := RandInt(40, 89);
    var spread := RandInt(50, 250);
    jmax := jmin + spread;
    s1 := RandInt(15, 150);
    s2 := DrawS2(s1, redraws, if redraws(0) != s1 + 56 then 0 else enough);
    s3 := RandInt(12, 55);
    s4 := RandInt(12, 27);
  }

  method DrawTimes() returns (rekey: string, reject: string, rejects: Range, rekeys: Range)
    ensures ParseRange(rekey) == Some(rekeys) && ParseRange(reject) == Some(rejects) && rekeys.hi + 30 <= rejects.lo
    ensures ValidRange(rekey, 1) && ValidRange(reject, 1) && rekey != "" && reject != ""
  {
    var rkLo := RandInt(100, 120);
    var rkHi, rjHi;
    rekey, rkHi := DrawRange(rkLo, 10, 40);
    var gap := RandInt(30, 60);
    reject, rjHi := DrawRange(rkHi + gap, 30, 90);
    rekeys, rejects := Range(rkLo, rkHi), Range(rkHi + gap, rjHi);
    RangeTextOk(rekey, rkLo, rkHi);
    RangeTextOk(reject, rkHi + gap, rjHi);
  }

  method DrawLimits() returns (padding: string, timeout: string, keepalive: string, attempts: string)
    ensures ValidRange(padding, 0) && ValidRange(timeout, 1) && ValidRange(keepalive, 1) && ValidRange(attempts, 1)
  {
    var hi;
    var cpLo := RandInt(8, 24);
    padding, hi := DrawRange(cpLo, 8, 40);
    RangeTextOk(padding, cpLo, hi);
    var rtLo := RandInt(3, 6);
    timeout, hi := DrawRange(rtLo, 1, 4);
    RangeTextOk(timeout, rtLo, hi);
    var kaLo := RandInt(8, 12);
    keepalive, hi := DrawRange(kaLo, 2, 8);
    RangeTextOk(keepalive, kaLo, hi);
    var haLo := RandInt(15, 25);
    attempts, hi := DrawRange(haLo, 5, 25);
    RangeTextOk(attempts, haLo, hi);
  }

  /** Four headers drawn and printed. */
  method DrawHeaders() returns (h1: string, h2: string, h3: string, h4: string)
    ensures IsH(h1) && IsH(h2) && IsH(h3) && IsH(h4)
    ensures ParseRange(h1).value.lo < ParseRange(h2).value.lo < ParseRange(h3).value.lo < ParseRange(h4).value.lo
    ensures ValidRange(h1, 0) && ValidRange(h2, 0) && ValidRange(h3, 0) && ValidRange(h4, 0)
  {
    var h, v := GenerateH();
    h1, h2, h3, h4 := h[0], h[1], h[2], h[3];
    HeaderTextOk(h1, v[0]);
    HeaderTextOk(h2, v[1]);
    HeaderTextOk(h3, v[2]);
    HeaderTextOk(h4, v[3]);
  }

  /** Whatever the random source gives, the generated set passes the validator, has four different headers and
      renews at least 30 s before any expiry. `key` is what the key generator gave, nothing if it failed; the draws
      of the second padding size are not all the same. */
  method Generate(keys: string -> bool, key: string, redraws: nat -> int, ghost enough: nat) returns (o: Obfuscation31)
    requires key == "" || keys(key)
    requires (forall k :: 15 <= redraws(k) <= 150) && redraws(enough) != redraws(0)
    ensures Validate(o, keys) == None && HeadersOk(o) && RenewsEarly(o)
    ensures o.headerProtectionKey == key && o.randomTrailers && o.disableCookies
  {
    var jc, jmin, jmax, s1, s2, s3, s4 := DrawCounts(redraws, enough);
    var h1, h2, h3, h4 := DrawHeaders();
    var n := RandInt(32, 256);
    RandomTagOk(n);
    var padding, timeout, keepalive, attempts := DrawLimits();
    var rekey, reject, _, _ := DrawTimes();
    o := Obfuscation31(jc, jmin, jmax, s1, s2, s3, s4, h1, h2, h3, h4, RandomTag(n), "", "", "", "", key, padding,
                       rekey, timeout, reject, keepalive, attempts, true, true);
    DrawnIsValid(o, keys);
  }
}
