/** A sample taken counter by counter and row by row, as the sampling loops go. */
module SampleSteps {
  import opened Options
  import opened NodeTypes
  import opened StatKeys
  import opened Engine
  import opened Edits
  import opened Sampling

  // ---------- Crediting one counter at a time ----------

  function BumpRow(t: Traffic, direction: string, delta: int, now: int): Traffic {
    t.(up := if direction == UPLINK then t.up + delta else t.up,
       down := if direction == DOWNLINK then t.down + delta else t.down,
       lastOnline := now,
       expiry := if t.expiry < 0 then now - t.expiry else t.expiry)
  }

  function BumpInbound(ib: Inbound, tag: string, direction: string, delta: int): Inbound {
    if ib.tag != tag then ib
    else if direction == UPLINK then ib.(up := ib.up + delta)
    else if direction == DOWNLINK then ib.(down := ib.down + delta)
    else ib
  }

  predicate BumpsUser(rows: map<string, Traffic>, stat: Stat) {
    stat.UserStat? && stat.email in rows && stat.direction in {UPLINK, DOWNLINK}
  }

  function BumpedRows(rows: map<string, Traffic>, stat: Stat, delta: int, now: int): map<string, Traffic> {
    if BumpsUser(rows, stat) then rows[stat.email := BumpRow(rows[stat.email], stat.direction, delta, now)] else rows
  }

  function BumpedInbound(rows: map<string, Traffic>, ib: Inbound, stat: Stat, delta: int, now: int): Inbound {
    if stat.InboundStat? then BumpInbound(ib, stat.tag, stat.direction, delta)
    else if BumpsUser(rows, stat) && rows[stat.email].expiry < 0 then
      ib.(clients := SetInClients(ib.clients, rows[stat.email].email, Expiry(now - rows[stat.email].expiry)))
    else ib
  }

  /** The effect of one counter whose delta is not zero. */
  function Bump(s: Snapshot, stat: Stat, delta: int, now: int): Snapshot {
    s.(traffic := BumpedRows(s.traffic, stat, delta, now),
       inbounds := seq(|s.inbounds|, i requires 0 <= i < |s.inbounds| => BumpedInbound(s.traffic, s.inbounds[i], stat, delta, now)))
  }

  /** Reading one more counter changes only the stat it parses to. */
  lemma OneMoreReading(values: Counters, baseline: Counters, key: string, value: int, stat: Stat)
    requires key !in values && stat.direction in {UPLINK, DOWNLINK}
    ensures StatCredit(values[key := value], baseline, stat) ==
      StatCredit(values, baseline, stat) + if Parse(key) == Some(stat) then Delta(baseline, key, value) else 0
    ensures Parse(key) == Some(stat) ==> StatCredit(values, baseline, stat) == 0
  {
    ParseRecovers(stat);
    if Parse(key).Some? { ParsedKey(key); }
  }

  ghost predicate RowsNamed(s: Snapshot) { forall e :: e in s.traffic ==> s.traffic[e].email == e }

  lemma OneMoreRow(s: Snapshot, values: Counters, baseline: Counters, key: string, value: int, now: int, email: string)
    requires key !in values && now >= 0 && email in s.traffic && s.traffic[email].email == email
    ensures var t := s.traffic[email];
      var before, after := CreditedRow(t, values, baseline, now), CreditedRow(t, values[key := value], baseline, now);
      var delta := Delta(baseline, key, value);
      after == if delta != 0 && Parse(key).Some? && Parse(key).value.UserStat? && Parse(key).value.email == email
          && Parse(key).value.direction in {UPLINK, DOWNLINK}
        then BumpRow(before, Parse(key).value.direction, delta, now) else before
  {
    OneMoreReading(values, baseline, key, value, UserStat(email, UPLINK));
    OneMoreReading(values, baseline, key, value, UserStat(email, DOWNLINK));
    CreditNotNegative(values, baseline, UserStat(email, UPLINK));
    CreditNotNegative(values, baseline, UserStat(email, DOWNLINK));
  }

  lemma CreditNotNegative(values: Counters, baseline: Counters, stat: Stat)
    ensures StatCredit(values, baseline, stat) >= 0
  {
  }

  /** Whether a reading of key credits the user. */
  predicate Credits(key: string, baseline: Counters, value: int, email: string) {
    && Delta(baseline, key, value) != 0
    && Parse(key).Some? && Parse(key).value.UserStat? && Parse(key).value.email == email
    && Parse(key).value.direction in {UPLINK, DOWNLINK}
  }

  lemma OneMoreMove(values: Counters, baseline: Counters, key: string, value: int, t: Traffic)
    requires key !in values
    ensures Moved(t, values[key := value], baseline) <==> Moved(t, values, baseline) || Credits(key, baseline, value, t.email)
  {
    OneMoreReading(values, baseline, key, value, UserStat(t.email, UPLINK));
    OneMoreReading(values, baseline, key, value, UserStat(t.email, DOWNLINK));
    CreditNotNegative(values, baseline, UserStat(t.email, UPLINK));
    CreditNotNegative(values, baseline, UserStat(t.email, DOWNLINK));
  }

  lemma OneMoreClient(rows: map<string, Traffic>, c: Client, values: Counters, baseline: Counters, key: string, value: int, now: int)
    requires key !in values && now >= 0 && forall e :: e in rows ==> rows[e].email == e
    ensures var before, after := CreditedClient(rows, c, values, baseline, now), CreditedClient(rows, c, values[key := value], baseline, now);
      after == if c.email in rows && Credits(key, baseline, value, c.email) && CreditedRow(rows[c.email], values, baseline, now).expiry < 0
        then before.(expiry := now - rows[c.email].expiry) else before
  {
    if c.email in rows { OneMoreMove(values, baseline, key, value, rows[c.email]); }
  }

  lemma OneMoreTag(values: Counters, baseline: Counters, key: string, value: int, tag: string)
    requires key !in values
    ensures var up, down := StatCredit(values, baseline, InboundStat(tag, UPLINK)), StatCredit(values, baseline, InboundStat(tag, DOWNLINK));
      var delta := Delta(baseline, key, value);
      && StatCredit(values[key := value], baseline, InboundStat(tag, UPLINK)) == up + (if Parse(key) == Some(InboundStat(tag, UPLINK)) then delta else 0)
      && StatCredit(values[key := value], baseline, InboundStat(tag, DOWNLINK)) == down + (if Parse(key) == Some(InboundStat(tag, DOWNLINK)) then delta else 0)
  {
    OneMoreReading(values, baseline, key, value, InboundStat(tag, UPLINK));
    OneMoreReading(values, baseline, key, value, InboundStat(tag, DOWNLINK));
  }

  function CreditedRows(s: Snapshot, values: Counters, baseline: Counters, now: int): map<string, Traffic> {
    map e | e in s.traffic :: CreditedRow(s.traffic[e], values, baseline, now)
  }

  /** Whether the sampler makes anything of a reading. */
  predicate Counts(key: string, baseline: Counters, value: int) { Delta(baseline, key, value) != 0 && Parse(key).Some? }

  function AfterReading(rows: map<string, Traffic>, ib: Inbound, baseline: Counters, key: string, value: int, now: int): Inbound {
    if Counts(key, baseline, value) then BumpedInbound(rows, ib, Parse(key).value, Delta(baseline, key, value), now) else ib
  }

  lemma ReadingCounters(rows: map<string, Traffic>, ib: Inbound, baseline: Counters, key: string, value: int, now: int)
    ensures var r, delta := AfterReading(rows, ib, baseline, key, value, now), Delta(baseline, key, value);
      && r == ib.(up := r.up, down := r.down, clients := r.clients)
      && r.up == ib.up + (if Parse(key) == Some(InboundStat(ib.tag, UPLINK)) then delta else 0)
      && r.down == ib.down + (if Parse(key) == Some(InboundStat(ib.tag, DOWNLINK)) then delta else 0)
  {
  }

  lemma ReadingClient(rows: map<string, Traffic>, ib: Inbound, baseline: Counters, key: string, value: int, now: int, k: nat)
    requires k < |ib.clients| && forall e :: e in rows ==> rows[e].email == e
    ensures var r, c := AfterReading(rows, ib, baseline, key, value, now), ib.clients[k];
      && |r.clients| == |ib.clients|
      && r.clients[k] == if c.email in rows && Credits(key, baseline, value, c.email) && rows[c.email].expiry < 0
           then c.(expiry := now - rows[c.email].expiry) else c
  {
  }

  lemma OneMoreClients(s: Snapshot, values: Counters, baseline: Counters, key: string, value: int, now: int, ib: Inbound)
    requires key !in values && now >= 0 && RowsNamed(s)
    ensures CreditedInbound(s.traffic, ib, values[key := value], baseline, now).clients ==
      AfterReading(CreditedRows(s, values, baseline, now), CreditedInbound(s.traffic, ib, values, baseline, now), baseline, key, value, now).clients
  {
    var before, after := CreditedInbound(s.traffic, ib, values, baseline, now), CreditedInbound(s.traffic, ib, values[key := value], baseline, now);
    var rows := CreditedRows(s, values, baseline, now);
    var r := AfterReading(rows, before, baseline, key, value, now);
    if ib.clients == [] { ReadingNoClients(rows, before, baseline, key, value, now); }
    forall k | 0 <= k < |ib.clients| ensures |r.clients| == |after.clients| && after.clients[k] == r.clients[k] {
      OneMoreClient(s.traffic, ib.clients[k], values, baseline, key, value, now);
      ReadingClient(rows, before, baseline, key, value, now, k);
    }
  }

  lemma ReadingNoClients(rows: map<string, Traffic>, ib: Inbound, baseline: Counters, key: string, value: int, now: int)
    requires ib.clients == []
    ensures AfterReading(rows, ib, baseline, key, value, now).clients == []
  {
  }

  lemma OneMoreInbound(s: Snapshot, values: Counters, baseline: Counters, key: string, value: int, now: int, ib: Inbound)
    requires key !in values && now >= 0 && RowsNamed(s)
    ensures CreditedInbound(s.traffic, ib, values[key := value], baseline, now) ==
      AfterReading(CreditedRows(s, values, baseline, now), CreditedInbound(s.traffic, ib, values, baseline, now), baseline, key, value, now)
  {
    OneMoreTag(values, baseline, key, value, ib.tag);
    OneMoreClients(s, values, baseline, key, value, now, ib);
    ReadingCounters(CreditedRows(s, values, baseline, now), CreditedInbound(s.traffic, ib, values, baseline, now), baseline, key, value, now);
  }

  function RowsAfter(rows: map<string, Traffic>, baseline: Counters, key: string, value: int, now: int): (r: map<string, Traffic>)
    ensures r.Keys == rows.Keys
  {
    if Counts(key, baseline, value) then BumpedRows(rows, Parse(key).value, Delta(baseline, key, value), now) else rows
  }

  lemma RowAfterReading(s: Snapshot, values: Counters, baseline: Counters, key: string, value: int, now: int, e: string)
    requires key !in values && now >= 0 && RowsNamed(s) && e in s.traffic
    ensures CreditedRow(s.traffic[e], values[key := value], baseline, now) ==
      RowsAfter(CreditedRows(s, values, baseline, now), baseline, key, value, now)[e]
  {
    OneMoreRow(s, values, baseline, key, value, now, e);
  }

  lemma OneMoreRows(s: Snapshot, values: Counters, baseline: Counters, key: string, value: int, now: int)
    requires key !in values && now >= 0 && RowsNamed(s)
    ensures CreditedRows(s, values[key := value], baseline, now) ==
      RowsAfter(CreditedRows(s, values, baseline, now), baseline, key, value, now)
  {
    var r := RowsAfter(CreditedRows(s, values, baseline, now), baseline, key, value, now);
    var after := CreditedRows(s, values[key := value], baseline, now);
    assert after.Keys == s.traffic.Keys == r.Keys;
    forall e | e in r ensures after[e] == r[e] { RowAfterReading(s, values, baseline, key, value, now, e); }
  }

  /** Crediting counter by counter gives, in any order, the credit of the whole reading. */
  lemma OneMoreCounter(s: Snapshot, values: Counters, baseline: Counters, key: string, value: int, now: int)
    requires key !in values && now >= 0 && RowsNamed(s)
    ensures Credited(s, values[key := value], baseline, now) ==
      var before := Credited(s, values, baseline, now);
      if Counts(key, baseline, value) then Bump(before, Parse(key).value, Delta(baseline, key, value), now) else before
  {
    OneMoreRows(s, values, baseline, key, value, now);
    forall i | 0 <= i < |s.inbounds| {
      OneMoreInbound(s, values, baseline, key, value, now, s.inbounds[i]);
    }
  }

  lemma NothingCredited(s: Snapshot, baseline: Counters, now: int)
    ensures Credited(s, map[], baseline, now) == s
  {
    assert Credited(s, map[], baseline, now).traffic == s.traffic;
    forall i | 0 <= i < |s.inbounds| ensures CreditedInbound(s.traffic, s.inbounds[i], map[], baseline, now) == s.inbounds[i] {}
  }

  // ---------- Enforcing quotas client by client ----------

  /** The state once the rows in `done` have been checked. */
  function EnforcedFor(s: Snapshot, done: set<string>, now: int): Snapshot {
    s.(traffic := map e | e in s.traffic :: if e in done then EnforcedRow(s, e, now) else s.traffic[e],
       inbounds := seq(|s.inbounds|, i requires 0 <= i < |s.inbounds| => EnforcedClients(s, s.inbounds[i], done, now)))
  }

  function EnforcedClients(s: Snapshot, ib: Inbound, done: set<string>, now: int): Inbound {
    ib.(clients := seq(|ib.clients|, i requires 0 <= i < |ib.clients| =>
      if ib.clients[i].email in done then EnforcedClient(s, ib.clients[i], now) else ib.clients[i]))
  }

  lemma NothingEnforced(s: Snapshot, now: int)
    ensures EnforcedFor(s, {}, now) == s
  {
    forall i | 0 <= i < |s.inbounds| ensures EnforcedClients(s, s.inbounds[i], {}, now) == s.inbounds[i] {}
  }

  lemma EnforceOneInbound(s: Snapshot, ib: Inbound, done: set<string>, email: string, now: int)
    requires email !in done
    ensures EnforcedClients(s, ib, done + {email}, now) == var before := EnforcedClients(s, ib, done, now);
      if Spent(s, email, now) then before.(clients := SetInClients(before.clients, email, Enable(false))) else before
  {
    var before, after := EnforcedClients(s, ib, done, now), EnforcedClients(s, ib, done + {email}, now);
    var r := if Spent(s, email, now) then before.(clients := SetInClients(before.clients, email, Enable(false))) else before;
    forall k | 0 <= k < |ib.clients| ensures after.clients[k] == r.clients[k] {}
    assert after.clients == r.clients;
  }

  lemma EnforceOneRow(s: Snapshot, done: set<string>, email: string, now: int)
    requires email in s.traffic && email !in done
    ensures var before, after := EnforcedFor(s, done, now).traffic, EnforcedFor(s, done + {email}, now).traffic;
      && before[email] == s.traffic[email]
      && after == if Spent(s, email, now) then before[email := before[email].(enable := false)] else before
  {
    var before, after := EnforcedFor(s, done, now).traffic, EnforcedFor(s, done + {email}, now).traffic;
    assert before.Keys == s.traffic.Keys == after.Keys;
  }

  /** Checking one more row switches it and its listings off if it is spent. */
  lemma EnforceOne(s: Snapshot, done: set<string>, email: string, now: int)
    requires email in s.traffic && email !in done
    ensures EnforcedFor(s, done + {email}, now) == var before := EnforcedFor(s, done, now);
      if Spent(s, email, now)
      then before.(traffic := before.traffic[email := before.traffic[email].(enable := false)],
                   inbounds := SetClientField(before.inbounds, email, Enable(false)))
      else before
  {
    EnforceOneRow(s, done, email, now);
    forall i | 0 <= i < |s.inbounds| { EnforceOneInbound(s, s.inbounds[i], done, email, now); }
  }

  lemma AllEnforced(s: Snapshot, now: int)
    ensures Enforced(s, now) == var n := EnforcedFor(s, s.traffic.Keys, now);
      n.(inbounds := seq(|n.inbounds|, i requires 0 <= i < |n.inbounds| =>
        if Closed(n.inbounds[i], now) then n.inbounds[i].(enable := false) else n.inbounds[i]))
  {
    var n := EnforcedFor(s, s.traffic.Keys, now);
    assert Enforced(s, now).traffic == n.traffic;
    forall i | 0 <= i < |s.inbounds|
      ensures EnforcedInbound(s, s.inbounds[i], now).clients == EnforcedClients(s, s.inbounds[i], s.traffic.Keys, now).clients
    {
    }
  }
}
