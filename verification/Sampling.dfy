/** Turning the proxy's cumulative counters into durable usage, and enforcing quotas. */
module Sampling {
  import opened Options
  import opened NodeTypes
  import opened StatKeys
  import opened Engine
  import opened Sync
  import opened Edits

  // ---------- Bytes to credit ----------

  /** What one counter reading adds, given the last reading of the same process generation. */
  function Delta(baseline: Counters, key: string, value: int): int {
    if value < 0 then 0
    else if value < Get(baseline, key) then value
    else value - Get(baseline, key)
  }

  function Credit(values: Counters, baseline: Counters, key: string): int {
    if key in values then Delta(baseline, key, values[key]) else 0
  }

  /** Bytes credited to a user or inbound: only names the sampler recovers from the counter name get any. */
  function StatCredit(values: Counters, baseline: Counters, stat: Stat): int {
    if Plain(NameOf(stat)) then Credit(values, baseline, Key(stat)) else 0
  }

  predicate Moved(t: Traffic, values: Counters, baseline: Counters) {
    StatCredit(values, baseline, UserStat(t.email, UPLINK)) != 0 || StatCredit(values, baseline, UserStat(t.email, DOWNLINK)) != 0
  }

  // ---------- The three stages of a sample ----------

  function CreditedRow(t: Traffic, values: Counters, baseline: Counters, now: int): Traffic {
    var moved := Moved(t, values, baseline);
    t.(up := t.up + StatCredit(values, baseline, UserStat(t.email, UPLINK)),
       down := t.down + StatCredit(values, baseline, UserStat(t.email, DOWNLINK)),
       lastOnline := if moved then now else t.lastOnline,
       expiry := if moved && t.expiry < 0 then now - t.expiry else t.expiry)
  }

  /** A delayed-start client's expiry is fixed together with its row's. */
  function CreditedClient(rows: map<string, Traffic>, c: Client, values: Counters, baseline: Counters, now: int): Client {
    if c.email in rows && Moved(rows[c.email], values, baseline) && rows[c.email].expiry < 0
    then c.(expiry := now - rows[c.email].expiry) else c
  }

  function CreditedInbound(rows: map<string, Traffic>, ib: Inbound, values: Counters, baseline: Counters, now: int): Inbound {
    ib.(up := ib.up + StatCredit(values, baseline, InboundStat(ib.tag, UPLINK)),
        down := ib.down + StatCredit(values, baseline, InboundStat(ib.tag, DOWNLINK)),
        clients := seq(|ib.clients|, i requires 0 <= i < |ib.clients| => CreditedClient(rows, ib.clients[i], values, baseline, now)))
  }

  function Credited(s: Snapshot, values: Counters, baseline: Counters, now: int): Snapshot {
    s.(traffic := map e | e in s.traffic :: CreditedRow(s.traffic[e], values, baseline, now),
       inbounds := seq(|s.inbounds|, i requires 0 <= i < |s.inbounds| =>
         CreditedInbound(s.traffic, s.inbounds[i], values, baseline, now)))
  }

  predicate Spent(s: Snapshot, email: string, now: int) {
    email in s.traffic && s.traffic[email].enable && Exhausted(s.globals, s.traffic[email], now)
  }

  function EnforcedClient(s: Snapshot, c: Client, now: int): Client {
    if Spent(s, c.email, now) then c.(enable := false) else c
  }

  function EnforcedInbound(s: Snapshot, ib: Inbound, now: int): Inbound {
    ib.(enable := ib.enable && !Closed(ib, now),
        clients := seq(|ib.clients|, i requires 0 <= i < |ib.clients| => EnforcedClient(s, ib.clients[i], now)))
  }

  function EnforcedRow(s: Snapshot, email: string, now: int): Traffic
    requires email in s.traffic
  {
    if Spent(s, email, now) then s.traffic[email].(enable := false) else s.traffic[email]
  }

  function Enforced(s: Snapshot, now: int): Snapshot {
    s.(traffic := map e | e in s.traffic :: EnforcedRow(s, e, now),
       inbounds := seq(|s.inbounds|, i requires 0 <= i < |s.inbounds| => EnforcedInbound(s, s.inbounds[i], now)))
  }

  function FreshRows(rows: map<string, Global>, now: int): map<string, Global> {
    map e | e in rows && rows[e].updatedAt >= now - DAY_MS :: rows[e]
  }

  function FreshGlobals(globals: map<string, map<string, Global>>, now: int): map<string, map<string, Global>> {
    map m | m in globals && FreshRows(globals[m], now) != map[] :: FreshRows(globals[m], now)
  }

  function Pruned(s: Snapshot, now: int): Snapshot { s.(globals := FreshGlobals(s.globals, now)) }

  /** The state after one sample. */
  function Sampled(s: Snapshot, values: Counters, baseline: Counters, now: int): Snapshot {
    Pruned(Enforced(Credited(s, values, baseline, now), now), now)
  }

  // ---------- What a sample guarantees ----------

  /** Pruning stale overlay rows, or all rows of a master, changes no verdict. */
  lemma PruningKeepsVerdicts(globals: map<string, map<string, Global>>, t: Traffic, now: int)
    ensures WithinLimits(FreshGlobals(globals, now), t, now) <==> WithinLimits(globals, t, now)
  {
    var kept := FreshGlobals(globals, now);
    if t.total > 0 {
      if m :| m in globals && t.email in globals[m] && !RowWithin(globals[m][t.email], t.total, now) {
        assert t.email in FreshRows(globals[m], now);
        assert m in kept && !RowWithin(kept[m][t.email], t.total, now);
      }
      if m :| m in kept && t.email in kept[m] && !RowWithin(kept[m][t.email], t.total, now) {
        assert !RowWithin(globals[m][t.email], t.total, now);
      }
    }
  }

  /** A sample drops exactly the overlay rows that no master has updated within 24 hours, and the masters left without any. */
  lemma SamplePrunes(s: Snapshot, values: Counters, baseline: Counters, now: int)
    ensures var n := Sampled(s, values, baseline, now);
      && (forall m, e :: m in s.globals && e in s.globals[m] && s.globals[m][e].updatedAt >= now - 24 * 60 * 60 * 1000 ==>
            m in n.globals && e in n.globals[m] && n.globals[m][e] == s.globals[m][e])
      && (forall m :: m in n.globals ==> m in s.globals && n.globals[m] != map[])
      && (forall m, e :: m in n.globals && e in n.globals[m] ==>
            e in s.globals[m] && s.globals[m][e].updatedAt >= now - 24 * 60 * 60 * 1000)
  {
    forall m, e | m in s.globals && e in s.globals[m] && s.globals[m][e].updatedAt >= now - 24 * 60 * 60 * 1000
      ensures m in FreshGlobals(s.globals, now) && e in FreshGlobals(s.globals, now)[m]
    {
      assert e in FreshRows(s.globals[m], now);
    }
  }

  /** Quota safety: after a sample an enabled client has used less than its total, by its own bytes and by every master's
      row of the last 24 hours, and has not expired; likewise an enabled inbound by its own bytes and expiry. */
  lemma SampleEnforcesQuotas(s: Snapshot, values: Counters, baseline: Counters, now: int)
    ensures var n := Sampled(s, values, baseline, now);
      forall e :: e in n.traffic && n.traffic[e].enable ==>
        var t := n.traffic[e];
        && (t.total > 0 ==> t.up + t.down < t.total)
        && (t.expiry <= 0 || t.expiry > now)
        && (t.total > 0 ==> forall m :: m in s.globals && t.email in s.globals[m] ==>
              var g := s.globals[m][t.email];
              g.updatedAt >= now - 24 * 60 * 60 * 1000 ==> g.up + g.down < t.total)
    ensures var n := Sampled(s, values, baseline, now);
      forall i :: 0 <= i < |n.inbounds| && n.inbounds[i].enable ==>
        var ib := n.inbounds[i];
        (ib.total > 0 ==> ib.up + ib.down < ib.total) && (ib.expiry <= 0 || ib.expiry > now)
  {
    var n := Sampled(s, values, baseline, now);
    SampleSwitchesOffExactly(s, values, baseline, now);
    assert forall e :: e in n.traffic && n.traffic[e].enable ==> WithinLimits(s.globals, n.traffic[e], now);
    assert forall i :: 0 <= i < |n.inbounds| && n.inbounds[i].enable ==> WithinOwnLimits(n.inbounds[i], now);
  }

  /** A sample enables nothing: it only ever switches clients and inbounds off. */
  lemma SampleNeverEnables(s: Snapshot, values: Counters, baseline: Counters, now: int)
    ensures var n := Sampled(s, values, baseline, now);
      && n.traffic.Keys == s.traffic.Keys && |n.inbounds| == |s.inbounds|
      && (forall e :: e in s.traffic && n.traffic[e].enable ==> s.traffic[e].enable)
      && (forall i :: 0 <= i < |s.inbounds| && n.inbounds[i].enable ==> s.inbounds[i].enable)
  {
  }

  /** A sample switches off exactly the clients and inbounds that are beyond their limits, and switches nothing on. */
  lemma SampleSwitchesOffExactly(s: Snapshot, values: Counters, baseline: Counters, now: int)
    ensures var n := Sampled(s, values, baseline, now);
      && n.traffic.Keys == s.traffic.Keys && |n.inbounds| == |s.inbounds|
      && (forall e :: e in s.traffic ==>
            (n.traffic[e].enable <==> s.traffic[e].enable && WithinLimits(s.globals, n.traffic[e], now)))
      && (forall i :: 0 <= i < |s.inbounds| ==>
            (n.inbounds[i].enable <==> s.inbounds[i].enable && WithinOwnLimits(n.inbounds[i], now)))
  {
    var c := Credited(s, values, baseline, now);
    var n := Sampled(s, values, baseline, now);
    forall e | e in s.traffic
      ensures n.traffic[e].enable <==> s.traffic[e].enable && WithinLimits(s.globals, n.traffic[e], now)
    {
      assert n.traffic[e] == EnforcedRow(c, e, now);
      LimitsAreExact(s.globals, c.traffic[e], now);
    }
  }

  /** What one counter adds: nothing without a reading or for a negative one, the growth since the last reading of the
      process, and all of a reading that is below the last one or has none before it. */
  lemma CreditIs(values: Counters, baseline: Counters, key: string)
    ensures key !in values || values[key] < 0 ==> Credit(values, baseline, key) == 0
    ensures key in values && values[key] >= 0 ==>
      Credit(values, baseline, key) == values[key] - if key in baseline && baseline[key] <= values[key] then baseline[key] else 0
  {
  }

  lemma KeyText(kind: string, head: string, name: string, direction: string, tail: string)
    requires head == kind + ">>>" && tail == ">>>traffic>>>" + direction
    ensures kind + SEP + (name + SEP + ("traffic" + SEP + direction)) == head + name + tail
  {
    assert SEP + ("traffic" + SEP + direction) == tail;
    assert name + SEP + ("traffic" + SEP + direction) == name + tail;
    assert head + (name + tail) == head + name + tail;
  }

  /** The names of the four counters. */
  lemma CounterNames(name: string)
    ensures Key(UserStat(name, UPLINK)) == "user>>>" + name + ">>>traffic>>>uplink"
    ensures Key(UserStat(name, DOWNLINK)) == "user>>>" + name + ">>>traffic>>>downlink"
    ensures Key(InboundStat(name, UPLINK)) == "inbound>>>" + name + ">>>traffic>>>uplink"
    ensures Key(InboundStat(name, DOWNLINK)) == "inbound>>>" + name + ">>>traffic>>>downlink"
  {
    KeyText("user", "user>>>", name, UPLINK, ">>>traffic>>>uplink");
    KeyText("user", "user>>>", name, DOWNLINK, ">>>traffic>>>downlink");
    KeyText("inbound", "inbound>>>", name, UPLINK, ">>>traffic>>>uplink");
    KeyText("inbound", "inbound>>>", name, DOWNLINK, ">>>traffic>>>downlink");
  }

  /** An inbound gains exactly what its two counters add, if its name can be told from theirs, and keeps its id, tag,
      port and limits. */
  lemma SampleCreditsInbounds(s: Snapshot, values: Counters, baseline: Counters, now: int, i: nat)
    requires i < |s.inbounds|
    ensures var ib, n := s.inbounds[i], Sampled(s, values, baseline, now).inbounds[i];
      && n.up == ib.up + (if Plain(ib.tag) then Credit(values, baseline, "inbound>>>" + ib.tag + ">>>traffic>>>uplink") else 0)
      && n.down == ib.down + (if Plain(ib.tag) then Credit(values, baseline, "inbound>>>" + ib.tag + ">>>traffic>>>downlink") else 0)
      && n.id == ib.id && n.tag == ib.tag && n.port == ib.port && n.total == ib.total && n.expiry == ib.expiry
  {
    CounterNames(s.inbounds[i].tag);
  }

  /** A delayed-start expiry is fixed by the first traffic, to a date after now, and by nothing else. */
  lemma ExpiryIsFixedOnce(s: Snapshot, values: Counters, baseline: Counters, now: int, email: string)
    requires email in s.traffic && now >= 0
    ensures var t, u := s.traffic[email], Sampled(s, values, baseline, now).traffic[email];
      && u.expiry == (if t.expiry < 0 && (u.up != t.up || u.down != t.down) then now - t.expiry else t.expiry)
      && (u.expiry != t.expiry ==> t.expiry < 0 && u.expiry > now)
  {
  }

  /** A row gains exactly what its two counters add, if its email can be told from theirs, and was last online now if
      either added anything. */
  lemma SampleCredits(s: Snapshot, values: Counters, baseline: Counters, now: int, email: string)
    requires email in s.traffic
    ensures var t, u := s.traffic[email], Sampled(s, values, baseline, now).traffic[email];
      && u.up == t.up + (if Plain(t.email) then Credit(values, baseline, "user>>>" + t.email + ">>>traffic>>>uplink") else 0)
      && u.down == t.down + (if Plain(t.email) then Credit(values, baseline, "user>>>" + t.email + ">>>traffic>>>downlink") else 0)
      && u.lastOnline == (if u.up != t.up || u.down != t.down then now else t.lastOnline)
      && u.id == t.id && u.email == t.email && u.uuid == t.uuid && u.total == t.total && u.inboundId == t.inboundId
  {
    CounterNames(s.traffic[email].email);
  }
}
