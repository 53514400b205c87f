/** What holds over every history of commits and samples. */
module Histories {
  import opened Options
  import opened NodeTypes
  import opened Engine
  import opened Sync
  import opened Edits
  import opened Sampling
  import opened Invariant
  import opened Runs

  datatype Move = Commit(edit: Edit) | Sample(values: Counters, baseline: Counters, now: int) | Stamp(at: int, running: bool)

  /** What saving a state writes into it: the time, and whether the node is up. */
  function Stamped(s: Snapshot, at: int, running: bool): Snapshot { s.(checkpointAt := at, running := running) }

  predicate Moves(config: Config, s: Snapshot, m: Move, n: Snapshot) {
    match m
    case Commit(e) => Committed(config, s, e) == Some(n)
    case Sample(values, baseline, now) => n == Sampled(s, values, baseline, now)
    case Stamp(at, running) => n == Stamped(s, at, running)
  }

  function Step(config: Config): (Snapshot, Move, Snapshot) -> bool { (s, m, n) => Moves(config, s, m, n) }

  lemma MoveKeepsStateOk(config: Config, s: Snapshot, m: Move, n: Snapshot)
    requires StateOk(s) && Moves(config, s, m, n)
    ensures StateOk(n)
  {
    match m
    case Commit(e) => CommitKeepsStateOk(config, s, e);
    case Sample(values, baseline, now) => SampleKeepsStateOk(s, values, baseline, now);
    case Stamp(_, _) => StampKeepsStateOk(s, n);
  }

  lemma StampKeepsStateOk(s: Snapshot, n: Snapshot)
    requires StateOk(s) && n == Stamped(s, n.checkpointAt, n.running)
    ensures StateOk(n)
  {
  }

  /** Every state of every history from a good state is good, and the loader would accept it. */
  lemma HistoryStaysOk(config: Config, states: seq<Snapshot>, moves: seq<Move>, i: nat)
    requires Run(Step(config), states, moves) && StateOk(states[0]) && i < |states|
    ensures StateOk(states[i]) && LoadAccepts(states[i])
  {
    ghost var ok := (s: Snapshot) => StateOk(s);
    forall s, m, n | ok(s) && Step(config)(s, m, n) ensures ok(n) { MoveKeepsStateOk(config, s, m, n); }
    Always(Step(config), ok, states, moves, i);
    LoaderAccepts(states[i]);
  }

  /** Stamping changes no table. */
  lemma {:induction false} StampKeepsTable(s: Snapshot, at: int, running: bool, n: nat, now: int)
    requires n <= |s.inbounds|
    ensures Table(Stamped(s, at, running), n, now) == Table(s, n, now)
  {
    if n > 0 {
      StampKeepsTable(s, at, running, n - 1, now);
      StampKeepsUsers(s, at, running, s.inbounds[n - 1], |s.inbounds[n - 1].clients|, now);
    }
  }

  lemma {:induction false} StampKeepsUsers(s: Snapshot, at: int, running: bool, ib: Inbound, n: nat, now: int)
    requires n <= |ib.clients|
    ensures Users(Stamped(s, at, running), ib, n, now) == Users(s, ib, n, now)
  {
    if n > 0 { StampKeepsUsers(s, at, running, ib, n - 1, now); }
  }

  // ---------- Identities ----------

  function InboundIds(s: Snapshot): set<int> { set i | 0 <= i < |s.inbounds| :: s.inbounds[i].id }

  function RowIds(s: Snapshot): set<int> { set e | e in s.traffic :: s.traffic[e].id }

  /** From s to n ids are only dropped or newly drawn from the counters. */
  ghost predicate FreshIds(s: Snapshot, n: Snapshot) {
    && s.nextId <= n.nextId && s.nextClientId <= n.nextClientId
    && (forall id :: id in InboundIds(n) && id !in InboundIds(s) ==> id >= s.nextId)
    && (forall id :: id in RowIds(n) && id !in RowIds(s) ==> id >= s.nextClientId)
  }

  lemma ResetIds(s: Snapshot, email: string)
    requires email in s.traffic
    ensures InboundIds(ResetClient(s, email)) == InboundIds(s) && RowIds(ResetClient(s, email)) == RowIds(s)
  {
    var n := ResetClient(s, email);
    forall i | 0 <= i < |s.inbounds| ensures n.inbounds[i].id == s.inbounds[i].id {}
    forall e | e in s.traffic ensures e in n.traffic && n.traffic[e].id == s.traffic[e].id {}
    assert n.traffic.Keys == s.traffic.Keys;
  }

  lemma {:induction false} ResetAllIds(s: Snapshot, emails: seq<string>)
    ensures InboundIds(ResetAll(s, emails)) == InboundIds(s) && RowIds(ResetAll(s, emails)) == RowIds(s)
    ensures ResetAll(s, emails).nextId == s.nextId && ResetAll(s, emails).nextClientId == s.nextClientId
  {
    if emails != [] {
      ResetAllIds(s, emails[..|emails| - 1]);
      var rest := ResetAll(s, emails[..|emails| - 1]);
      if emails[|emails| - 1] in rest.traffic { ResetIds(rest, emails[|emails| - 1]); }
    }
  }

  lemma EditedIds(config: Config, s: Snapshot, e: Edit)
    requires Draft(s) && Edited(config, s, e).Some?
    ensures var n := Edited(config, s, e).value;
      && s.nextId <= n.nextId && s.nextClientId == n.nextClientId
      && (forall id :: id in InboundIds(n) && id !in InboundIds(s) ==> id >= s.nextId)
      && RowIds(n) <= RowIds(s)
  {
    var n := Edited(config, s, e).value;
    match e
    case PutInbound(ib, id) =>
      forall i | 0 <= i < |n.inbounds| ensures n.inbounds[i].id in InboundIds(s) || n.inbounds[i].id >= s.nextId {
        if i < |s.inbounds| { assert n.inbounds[i].id == s.inbounds[i].id; }
      }
    case DeleteInbound(id) =>
      var j := Position(s.inbounds, id);
      forall i | 0 <= i < |n.inbounds| ensures n.inbounds[i].id in InboundIds(s) {
        assert n.inbounds[i] == if i < j then s.inbounds[i] else s.inbounds[i + 1];
      }
    case ChangeClient(oldEmail, c, ids, op) =>
      forall i | 0 <= i < |n.inbounds| ensures n.inbounds[i].id == s.inbounds[i].id {}
      if op.Update? && c.email != oldEmail {
        forall f | f in n.traffic ensures n.traffic[f].id in RowIds(s) {
          if f == c.email { assert n.traffic[f].id == s.traffic[oldEmail].id; } else { assert f in s.traffic; }
        }
      }
    case ResetTraffic(email, id) =>
      if email == "" {
        forall i | 0 <= i < |n.inbounds| ensures n.inbounds[i].id == s.inbounds[i].id {}
      } else {
        ResetIds(s, email);
      }
    case ResetClientTraffics(emails) => ResetAllIds(s, emails);
    case PushGlobals(_, _, _) =>
  }

  lemma SyncedIds(s: Snapshot)
    requires Draft(s) && Synced(s).Some?
    ensures FreshIds(s, Synced(s).value)
  {
    var n := Synced(s).value;
    FoldKeeps(Start(s), Listings(s.inbounds));
    var a := Fold(Start(s), Listings(s.inbounds)).value;
    forall e | e in n.traffic ensures n.traffic[e].id in RowIds(s) || n.traffic[e].id >= s.nextClientId {
      if e in s.traffic { assert SameUsage(Start(s).traffic[e], a.traffic[e]); }
    }
  }

  lemma SampledIds(s: Snapshot, values: Counters, baseline: Counters, now: int)
    ensures FreshIds(s, Sampled(s, values, baseline, now))
  {
    var n := Sampled(s, values, baseline, now);
    forall i | 0 <= i < |n.inbounds| ensures n.inbounds[i].id == s.inbounds[i].id {}
    forall e | e in n.traffic ensures e in s.traffic && n.traffic[e].id == s.traffic[e].id {}
  }

  lemma MoveIds(config: Config, s: Snapshot, m: Move, n: Snapshot)
    requires StateOk(s) && Moves(config, s, m, n)
    ensures FreshIds(s, n)
  {
    match m
    case Commit(e) =>
      EditedDraft(config, s, e);
      EditedIds(config, s, e);
      SyncedIds(Edited(config, s, e).value);
    case Sample(values, baseline, now) => SampledIds(s, values, baseline, now);
    case Stamp(_, _) => assert n.inbounds == s.inbounds && n.traffic == s.traffic;
  }

  lemma FreshThroughout(config: Config, states: seq<Snapshot>, moves: seq<Move>, i: nat, k: nat)
    requires Run(Step(config), states, moves) && StateOk(states[0]) && i <= k < |states|
    ensures FreshIds(states[i], states[k])
  {
    ghost var ok := (s: Snapshot) => StateOk(s);
    ghost var fresher := (s: Snapshot, n: Snapshot) => FreshIds(s, n);
    forall s, m, n | ok(s) && Step(config)(s, m, n) ensures ok(n) { MoveKeepsStateOk(config, s, m, n); }
    forall a, s, m, n | fresher(a, s) && ok(s) && Step(config)(s, m, n) ensures fresher(a, n) {
      MoveIds(config, s, m, n);
      FreshIdsTrans(a, s, n);
    }
    Throughout(Step(config), ok, fresher, states, moves, i, k);
  }

  lemma GoneForGood(a: Snapshot, b: Snapshot, c: Snapshot, id: int)
    requires StateOk(a) && FreshIds(a, b) && FreshIds(b, c)
    ensures id in InboundIds(a) && id !in InboundIds(b) ==> id !in InboundIds(c)
    ensures id in RowIds(a) && id !in RowIds(b) ==> id !in RowIds(c)
  {
    IdsBelow(a);
  }

  /** Ids are never reused: an inbound or row id that has disappeared never comes back. */
  lemma IdsAreNeverReused(config: Config, states: seq<Snapshot>, moves: seq<Move>, i: nat, j: nat, k: nat, id: int)
    requires Run(Step(config), states, moves) && StateOk(states[0]) && i <= j <= k < |states|
    ensures id in InboundIds(states[i]) && id !in InboundIds(states[j]) ==> id !in InboundIds(states[k])
    ensures id in RowIds(states[i]) && id !in RowIds(states[j]) ==> id !in RowIds(states[k])
  {
    HistoryStaysOk(config, states, moves, i);
    FreshThroughout(config, states, moves, i, j);
    FreshThroughout(config, states, moves, j, k);
    GoneForGood(states[i], states[j], states[k], id);
  }

  lemma FreshIdsTrans(a: Snapshot, s: Snapshot, n: Snapshot)
    requires FreshIds(a, s) && FreshIds(s, n)
    ensures FreshIds(a, n)
  {
  }

  lemma IdsBelow(s: Snapshot)
    requires StateOk(s)
    ensures forall id :: id in InboundIds(s) ==> id < s.nextId
    ensures forall id :: id in RowIds(s) ==> id < s.nextClientId
  {
  }

  // ---------- Usage and enabling ----------

  /** The edits that may set a client's usage: its resets and its renames. */
  predicate SetsUsage(e: Edit, email: string) {
    match e
    case ResetTraffic(m, _) => m == email
    case ResetClientTraffics(emails) => email in emails
    case ChangeClient(oldEmail, c, _, op) => op.Update? && c.email != oldEmail && (email == oldEmail || email == c.email)
    case _ => false
  }

  lemma {:induction false} ResetAllSpares(s: Snapshot, emails: seq<string>, email: string)
    requires email in s.traffic && email !in emails
    ensures email in ResetAll(s, emails).traffic && ResetAll(s, emails).traffic[email] == s.traffic[email]
  {
    if emails != [] {
      assert emails[|emails| - 1] in emails;
      ResetAllSpares(s, emails[..|emails| - 1], email);
    }
  }

  lemma EditedSparesUsage(config: Config, s: Snapshot, e: Edit, email: string)
    requires Edited(config, s, e).Some? && !SetsUsage(e, email) && email in s.traffic
    ensures var d := Edited(config, s, e).value; email in d.traffic && d.traffic[email] == s.traffic[email]
  {
    if e.ResetClientTraffics? { ResetAllSpares(s, e.emails, email); }
  }

  lemma SyncedSparesUsage(d: Snapshot, email: string)
    requires Draft(d) && Synced(d).Some? && email in d.traffic && email in Synced(d).value.traffic
    ensures SameUsage(d.traffic[email], Synced(d).value.traffic[email])
  {
    FoldKeeps(Start(d), Listings(d.inbounds));
    assert email in Start(d).traffic;
  }

  /** Committing any other edit leaves the client's row, id and usage alone, if the client stays. */
  lemma CommitSparesUsage(config: Config, s: Snapshot, e: Edit, email: string)
    requires StateOk(s) && Committed(config, s, e).Some? && !SetsUsage(e, email)
    requires email in s.traffic && email in Committed(config, s, e).value.traffic
    ensures SameUsage(s.traffic[email], Committed(config, s, e).value.traffic[email])
  {
    EditedDraft(config, s, e);
    EditedSparesUsage(config, s, e, email);
    SyncedSparesUsage(Edited(config, s, e).value, email);
  }

  /** The edits that may switch a client on. */
  predicate MayEnable(e: Edit, email: string) {
    match e
    case PutInbound(_, _) => true
    case ChangeClient(_, c, _, op) => (op.Add? || op.Update?) && c.email == email
    case ResetTraffic(m, _) => m == email
    case ResetClientTraffics(emails) => email in emails
    case _ => false
  }

  /** Every listing of s shows what the client's row shows. */
  lemma ListedAsRow(s: Snapshot, i: nat, k: nat)
    requires InLine(s) && i < |s.inbounds| && k < |s.inbounds[i].clients|
    ensures var c := s.inbounds[i].clients[k]; c.email in s.traffic && c.enable == s.traffic[c.email].enable
  {
  }

  lemma {:induction false} KeptIsOld(cs: seq<Client>, oldEmail: string, sent: Client, op: ClientOp, sel: bool, c: Client)
    requires c in KeepAll(cs, oldEmail, sent, op, sel)
    ensures c in cs || (c == sent && (op.Add? || op.Update?))
  {
    if cs != [] {
      var rest := cs[..|cs| - 1];
      if c in KeepAll(rest, oldEmail, sent, op, sel) { KeptIsOld(rest, oldEmail, sent, op, sel, c); }
    }
  }

  lemma {:induction false} ResetAllShape(s: Snapshot, emails: seq<string>, i: nat)
    ensures |ResetAll(s, emails).inbounds| == |s.inbounds|
    ensures i < |s.inbounds| ==> |ResetAll(s, emails).inbounds[i].clients| == |s.inbounds[i].clients|
  {
    if emails != [] { ResetAllShape(s, emails[..|emails| - 1], i); }
  }

  lemma {:induction false} ResetAllListing(s: Snapshot, emails: seq<string>, i: nat, k: nat)
    requires i < |s.inbounds| && k < |s.inbounds[i].clients|
    requires |ResetAll(s, emails).inbounds| == |s.inbounds| && |ResetAll(s, emails).inbounds[i].clients| == |s.inbounds[i].clients|
    ensures var c, d := s.inbounds[i].clients[k], ResetAll(s, emails).inbounds[i].clients[k];
      d.email == c.email && (c.email !in emails ==> d == c)
  {
    if emails != [] {
      ResetAllShape(s, emails[..|emails| - 1], i);
      ResetAllListing(s, emails[..|emails| - 1], i, k);
      assert emails[|emails| - 1] in emails;
    }
  }

  lemma ChangedListing(s: Snapshot, oldEmail: string, sent: Client, ids: seq<int>, op: ClientOp, i: nat, c: Client)
    requires InLine(s) && i < |s.inbounds| && c in ChangedInbound(s.inbounds[i], oldEmail, sent, ids, op).clients
    ensures (c == sent && (op.Add? || op.Update?)) || (c.email in s.traffic && c.enable == s.traffic[c.email].enable)
  {
    var ib := s.inbounds[i];
    var sel := Selected(ib, ids);
    if c in KeepAll(ib.clients, oldEmail, sent, op, sel) {
      KeptIsOld(ib.clients, oldEmail, sent, op, sel, c);
      if c in ib.clients {
        var k :| 0 <= k < |ib.clients| && ib.clients[k] == c;
        ListedAsRow(s, i, k);
      }
    }
  }

  lemma DeletedListing(s: Snapshot, id: int, i: nat, k: nat)
    requires InLine(s) && i < |DeleteResult(s, id).inbounds| && k < |DeleteResult(s, id).inbounds[i].clients|
    ensures var c := DeleteResult(s, id).inbounds[i].clients[k];
      c.email in s.traffic && c.enable == s.traffic[c.email].enable
  {
    ListedAsRow(s, if i < Position(s.inbounds, id) then i else i + 1, k);
  }

  lemma ResetClientListing(s: Snapshot, email: string, i: nat, k: nat)
    requires email in s.traffic && i < |s.inbounds| && k < |s.inbounds[i].clients|
    ensures var c, d := s.inbounds[i].clients[k], ResetClient(s, email).inbounds[i].clients[k];
      d.email == c.email && (c.email != email ==> d == c)
  {
  }

  lemma ResetListing(s: Snapshot, email: string, id: int, d: Snapshot, i: nat, k: nat)
    requires InLine(s) && ResetResult(s, email, id) == Some(d) && i < |d.inbounds| && k < |d.inbounds[i].clients|
    ensures var c := d.inbounds[i].clients[k];
      c.email == email || (c.email in s.traffic && c.enable == s.traffic[c.email].enable)
  {
    if email != "" && ListedUnder(s, email, id) {
      assert d.inbounds == SetClientField(s.inbounds, email, Enable(true));
      ResetClientListing(s, email, i, k);
    } else {
      assert d.inbounds[i].clients == s.inbounds[i].clients;
    }
    ListedAsRow(s, i, k);
  }

  /** A listing the edit does not switch on shows what the row showed before. */
  lemma ListingIsOld(config: Config, s: Snapshot, e: Edit, d: Snapshot, i: nat, k: nat)
    requires InLine(s) && Edited(config, s, e) == Some(d) && !e.PutInbound?
    requires i < |d.inbounds| && k < |d.inbounds[i].clients|
    ensures var c := d.inbounds[i].clients[k];
      MayEnable(e, c.email) || (c.email in s.traffic && c.enable == s.traffic[c.email].enable)
  {
    match e
    case DeleteInbound(id) => DeletedListing(s, id, i, k);
    case ChangeClient(oldEmail, sent, ids, op) =>
      ChangedListing(s, oldEmail, sent, ids, op, i, d.inbounds[i].clients[k]);
    case ResetTraffic(email, id) => ResetListing(s, email, id, d, i, k);
    case ResetClientTraffics(emails) =>
      ResetAllShape(s, emails, i);
      ResetAllListing(s, emails, i, k);
      ListedAsRow(s, i, k);
    case PushGlobals(_, _, _) => ListedAsRow(s, i, k);
  }

  lemma CommitEnables(config: Config, s: Snapshot, e: Edit, n: Snapshot, email: string)
    requires InLine(s) && InLine(n) && Committed(config, s, e) == Some(n) && !MayEnable(e, email)
    requires email in s.traffic && email in n.traffic
    ensures n.traffic[email].enable == s.traffic[email].enable
  {
    var i :| 0 <= i < |n.inbounds| && Lists(n.inbounds[i], email);
    var k :| 0 <= k < |n.inbounds[i].clients| && n.inbounds[i].clients[k].email == email;
    var d := Edited(config, s, e).value;
    assert n.inbounds == d.inbounds;
    ListedAsRow(n, i, k);
    ListingIsOld(config, s, e, d, i, k);
  }

  /** Only a reset, an add or update of the client, or an inbound put can switch a disabled client on. */
  lemma OnlyTheseEnable(config: Config, s: Snapshot, m: Move, n: Snapshot, email: string)
    requires StateOk(s) && Moves(config, s, m, n)
    requires email in s.traffic && email in n.traffic && !s.traffic[email].enable && n.traffic[email].enable
    ensures m.Commit? && MayEnable(m.edit, email)
  {
    match m
    case Commit(e) =>
      MoveKeepsStateOk(config, s, m, n);
      if !MayEnable(e, email) { CommitEnables(config, s, e, n, email); }
    case Sample(values, baseline, now) => SampleNeverEnables(s, values, baseline, now);
    case Stamp(_, _) =>
  }
}
