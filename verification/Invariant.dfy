/** Every commit keeps the state invariant, and the loader accepts every state that has it. */
module Invariant {
  import opened Options
  import opened NodeTypes
  import opened Sync
  import opened Edits
  import opened Engine
  import opened Sampling
  import opened EditEffects

  // ---------- Each edit leaves a draft ----------

  lemma PutDraft(config: Config, s: Snapshot, ib: Inbound, id: int)
    requires Draft(s) && PutResult(config, s, ib, id).Some?
    ensures Draft(PutResult(config, s, ib, id).value)
  {
  }

  lemma DeleteDraft(s: Snapshot, id: int)
    requires Draft(s)
    ensures Draft(DeleteResult(s, id))
  {
  }

  lemma RenameDraft(s: Snapshot, oldEmail: string, email: string)
    requires Draft(s) && oldEmail in s.traffic && email !in s.traffic
    ensures Draft(Renamed(s, oldEmail, email))
  {
    var n := Renamed(s, oldEmail, email);
    assert n.traffic.Keys == s.traffic.Keys - {oldEmail} + {email};
    assert n.globals.Keys == s.globals.Keys;
  }

  lemma ChangeDraft(s: Snapshot, oldEmail: string, c: Client, ids: seq<int>, op: ClientOp)
    requires Draft(s) && ChangeResult(s, oldEmail, c, ids, op).Some?
    ensures Draft(ChangeResult(s, oldEmail, c, ids, op).value)
  {
    if op.Update? && c.email != oldEmail { RenameDraft(s, oldEmail, c.email); }
  }

  lemma ResetDraft(s: Snapshot, email: string)
    requires Draft(s) && email in s.traffic
    ensures Draft(ResetClient(s, email))
  {
    assert ResetClient(s, email).globals.Keys == s.globals.Keys;
  }

  lemma {:induction false} ResetAllDraft(s: Snapshot, emails: seq<string>)
    requires Draft(s)
    ensures Draft(ResetAll(s, emails))
  {
    if emails != [] {
      ResetAllDraft(s, emails[..|emails| - 1]);
      var rest := ResetAll(s, emails[..|emails| - 1]);
      if emails[|emails| - 1] in rest.traffic { ResetDraft(rest, emails[|emails| - 1]); }
    }
  }

  lemma {:induction false} PushRowsOk(s: Snapshot, known: map<string, Global>, rows: seq<Traffic>, now: int)
    requires known.Keys <= s.traffic.Keys && forall e :: e in known ==> known[e].up >= 0 && known[e].down >= 0
    requires forall i :: 0 <= i < |rows| ==> rows[i].up >= 0 && rows[i].down >= 0
    ensures var r := PushRows(s, known, rows, now); r.Keys <= s.traffic.Keys && forall e :: e in r ==> r[e].up >= 0 && r[e].down >= 0
  {
    if rows != [] { PushRowsOk(s, known, rows[..|rows| - 1], now); }
  }

  lemma PushDraft(s: Snapshot, master: string, rows: seq<Traffic>, now: int)
    requires Draft(s) && PushResult(s, master, rows, now).Some?
    ensures Draft(PushResult(s, master, rows, now).value)
  {
    var known := if master in s.globals then s.globals[master] else map[];
    PushRowsOk(s, known, rows, now);
    var n := PushResult(s, master, rows, now).value;
    assert n.globals.Keys == s.globals.Keys + {master};
    if master in s.globals { assert n.globals.Keys == s.globals.Keys; }
  }

  lemma EditedDraft(config: Config, s: Snapshot, e: Edit)
    requires Draft(s) && Edited(config, s, e).Some?
    ensures Draft(Edited(config, s, e).value)
  {
    match e
    case PutInbound(ib, id) => PutDraft(config, s, ib, id);
    case DeleteInbound(id) => DeleteDraft(s, id);
    case ChangeClient(oldEmail, c, ids, op) => ChangeDraft(s, oldEmail, c, ids, op);
    case ResetTraffic(email, id) => if email in s.traffic { ResetDraft(s, email); }
    case ResetClientTraffics(emails) => ResetAllDraft(s, emails);
    case PushGlobals(master, rows, now) => PushDraft(s, master, rows, now);
  }

  // ---------- Bringing the rows in line ----------

  /** The fold has seen exactly the listed emails, each with the fields all its listings agree on. */
  ghost predicate Sees(s: Snapshot, a: Progress) {
    && (forall e :: e in a.seen ==> exists i :: 0 <= i < |s.inbounds| && Lists(s.inbounds[i], e))
    && (forall i, k :: 0 <= i < |s.inbounds| && 0 <= k < |s.inbounds[i].clients| ==>
         var c := s.inbounds[i].clients[k]; c.email in a.seen && Agree(c, a.seen[c.email]))
  }

  lemma FoldSeesListings(s: Snapshot)
    requires Draft(s) && Fold(Start(s), Listings(s.inbounds)).Some?
    ensures Sees(s, Fold(Start(s), Listings(s.inbounds)).value)
  {
    var ls := Listings(s.inbounds);
    FoldSees(Start(s), ls);
    var a := Fold(Start(s), ls).value;
    forall i, k | 0 <= i < |s.inbounds| && 0 <= k < |s.inbounds[i].clients|
      ensures var c := s.inbounds[i].clients[k]; c.email in a.seen && Agree(c, a.seen[c.email])
    {
      ListingIn(s.inbounds, Listing(s.inbounds[i].id, s.inbounds[i].clients[k]));
      assert s.inbounds[i] in s.inbounds && s.inbounds[i].clients[k] in s.inbounds[i].clients;
    }
    forall e | e in a.seen
      ensures exists i :: 0 <= i < |s.inbounds| && Lists(s.inbounds[i], e)
    {
      var l :| l in ls && l.client.email == e;
      ListingIn(s.inbounds, l);
      var ib :| ib in s.inbounds && ib.id == l.inbound && l.client in ib.clients;
      var k :| 0 <= k < |ib.clients| && ib.clients[k] == l.client;
      assert Lists(ib, e);
      var i :| 0 <= i < |s.inbounds| && s.inbounds[i] == ib;
    }
  }

  lemma FinishDraft(s: Snapshot, a: Progress)
    requires Draft(s) && RowsOk(a.traffic, a.nextClientId) && a.nextClientId >= 1 && Continues(Start(s), a)
    ensures Draft(Finish(s, a))
  {
    var r := Finish(s, a);
    assert r.globals.Keys == s.globals.Keys;
    forall m | m in r.globals ensures r.globals[m].Keys <= r.traffic.Keys {
      forall e | e in r.globals[m] ensures e in r.traffic { assert e in s.globals[m] && e in s.traffic; }
    }
  }

  lemma FinishMirrors(s: Snapshot, a: Progress, i: nat, k: nat)
    requires Sees(s, a) && SeenOk(a) && i < |s.inbounds| && k < |s.inbounds[i].clients|
    ensures var c, r := s.inbounds[i].clients[k], Finish(s, a); c.email in r.traffic && Mirrors(r.traffic[c.email], c)
  {
    var c := s.inbounds[i].clients[k];
    assert c.email in a.seen && Agree(c, a.seen[c.email]);
  }

  lemma FinishKeys(s: Snapshot, a: Progress)
    requires SeenOk(a)
    ensures Finish(s, a).traffic.Keys == a.seen.Keys && |Finish(s, a).traffic.Keys| == |a.seen|
  {
    assert |a.seen| == |a.seen.Keys|;
  }

  lemma FinishInLine(s: Snapshot, a: Progress)
    requires Sees(s, a) && SeenOk(a) && |a.seen| <= MAX_CLIENTS
    ensures InLine(Finish(s, a))
  {
    var r := Finish(s, a);
    assert r.inbounds == s.inbounds;
    FinishKeys(s, a);
    forall i, k | 0 <= i < |s.inbounds| && 0 <= k < |s.inbounds[i].clients|
      ensures var c := s.inbounds[i].clients[k]; c.email in r.traffic && Mirrors(r.traffic[c.email], c)
    {
      FinishMirrors(s, a, i, k);
    }
    forall e | e in r.traffic ensures exists i :: 0 <= i < |s.inbounds| && Lists(s.inbounds[i], e) {
      assert e in a.seen;
    }
  }

  lemma SyncKeeps(s: Snapshot)
    requires Draft(s) && Structured(s) && Synced(s).Some?
    ensures StateOk(Synced(s).value)
  {
    var a := Fold(Start(s), Listings(s.inbounds)).value;
    FoldKeeps(Start(s), Listings(s.inbounds));
    FoldSeesListings(s);
    FinishDraft(s, a);
    FinishInLine(s, a);
  }

  /** The row of a listing has the listing's fields, and the inbound that lists the email last. */
  lemma SyncedListing(d: Snapshot, n: Snapshot, i: nat, k: nat)
    requires Draft(d) && Synced(d) == Some(n) && i < |d.inbounds| && k < |d.inbounds[i].clients|
    ensures var c := d.inbounds[i].clients[k];
      && c.email in n.traffic
      && var t := n.traffic[c.email];
      && t.uuid == c.id && t.enable == c.enable && t.total == c.total && t.expiry == c.expiry
      && LastListedAt(Listings(d.inbounds), c.email) == Some(t.inboundId)
  {
    var a, ls, e := Fold(Start(d), Listings(d.inbounds)).value, Listings(d.inbounds), d.inbounds[i].clients[k].email;
    FoldKeeps(Start(d), ls);
    FoldSeesListings(d);
    FinishMirrors(d, a, i, k);
    FoldPlaces(Start(d), ls, e);
  }

  /** After the sync there are rows for exactly the emails listed; rows that stay keep id and usage, new ones start at
      zero with a fresh id. */
  lemma SyncedRow(d: Snapshot, n: Snapshot, e: string)
    requires Draft(d) && Synced(d) == Some(n)
    ensures e in n.traffic <==> exists i :: 0 <= i < |d.inbounds| && Lists(d.inbounds[i], e)
    ensures e in n.traffic ==> if e in d.traffic then SameUsage(d.traffic[e], n.traffic[e]) else Starts(n.traffic[e], d.nextClientId)
  {
    FoldKeeps(Start(d), Listings(d.inbounds));
    FoldSeesListings(d);
    if i :| 0 <= i < |d.inbounds| && Lists(d.inbounds[i], e) {
      var k :| 0 <= k < |d.inbounds[i].clients| && d.inbounds[i].clients[k].email == e;
      SyncedListing(d, n, i, k);
    }
  }

  /** The sync drops exactly the overlay rows of emails that are listed no more, and leaves the rest of the state alone. */
  lemma SyncedOverlays(d: Snapshot, n: Snapshot)
    requires Draft(d) && Synced(d) == Some(n)
    ensures n.(traffic := d.traffic, globals := d.globals, nextClientId := d.nextClientId) == d
    ensures n.globals.Keys == d.globals.Keys
    ensures forall m, e :: m in d.globals ==> (e in n.globals[m] <==> e in d.globals[m] && e in n.traffic)
    ensures forall m, e :: m in d.globals && e in n.globals[m] ==> n.globals[m][e] == d.globals[m][e]
  {
    FoldKeeps(Start(d), Listings(d.inbounds));
    forall m, e | m in d.globals && e in d.globals[m] ensures e in d.traffic { assert d.globals[m].Keys <= d.traffic.Keys; }
  }

  /** An edit of a good state is committed exactly if it is not refused, leaves at most 8 inbounds, all good and with
      different ports and tags, and lists no client differently in two places nor more than 64 clients. */
  lemma CommitsExactly(config: Config, s: Snapshot, e: Edit)
    requires StateOk(s)
    ensures Edited(config, s, e).None? <==> EditRefused(s, e)
    ensures Committed(config, s, e).Some? <==> Edited(config, s, e).Some? && Commits(config, Edited(config, s, e).value)
  {
    EditRefusedExactly(config, s, e);
    if Edited(config, s, e).Some? {
      var d := Edited(config, s, e).value;
      EditedDraft(config, s, e);
      CheckedMeans(config, d);
      SyncRefusesExactly(d);
    }
  }

  ghost predicate Commits(config: Config, d: Snapshot) {
    && GoodInbounds(config, d)
    && (forall i: nat, k: nat :: !Conflict(Listings(d.inbounds), i, k))
    && |Emails(Listings(d.inbounds))| <= 64
  }

  /** Whole-state invariant: every committed edit keeps it. */
  lemma CommitKeepsStateOk(config: Config, s: Snapshot, e: Edit)
    requires StateOk(s) && Committed(config, s, e).Some?
    ensures StateOk(Committed(config, s, e).value)
  {
    EditedDraft(config, s, e);
    SyncKeeps(Edited(config, s, e).value);
  }

  // ---------- Samples ----------

  /** b is a with larger counters, and another enabled flag and other enabled flags and expiries of its clients. */
  predicate SameShape(a: Inbound, b: Inbound) {
    && b == a.(up := b.up, down := b.down, enable := b.enable, clients := b.clients)
    && b.up >= a.up && b.down >= a.down
    && |b.clients| == |a.clients|
    && forall k :: 0 <= k < |a.clients| ==> b.clients[k] == a.clients[k].(enable := b.clients[k].enable, expiry := b.clients[k].expiry)
  }

  lemma SameClientsValid(a: Inbound, b: Inbound)
    requires ValidInbound(a) && SameShape(a, b)
    ensures ValidInbound(b)
  {
    forall c | c in b.clients
      ensures ValidClient(c) && (!b.stream.reality && b.stream.network != Xhttp ==> c.flow == "")
    {
      var k :| 0 <= k < |b.clients| && b.clients[k] == c;
      assert a.clients[k] in a.clients;
    }
  }

  /** n is s with rows and inbounds reshaped one by one, row and listing in step. */
  ghost predicate Reshapes(s: Snapshot, n: Snapshot) {
    && n == s.(traffic := n.traffic, inbounds := n.inbounds)
    && n.traffic.Keys == s.traffic.Keys && |n.inbounds| == |s.inbounds|
    && (forall e :: e in s.traffic ==> RowKept(s.traffic[e], n.traffic[e]))
    && (forall i :: 0 <= i < |s.inbounds| ==> SameShape(s.inbounds[i], n.inbounds[i]))
    && (forall i, k :: 0 <= i < |s.inbounds| && 0 <= k < |s.inbounds[i].clients| ==> StaysInStep(s, n, i, k))
  }

  predicate RowKept(t: Traffic, u: Traffic) { u.id == t.id && u.email == t.email && u.up >= t.up && u.down >= t.down }

  predicate StaysInStep(s: Snapshot, n: Snapshot, i: nat, k: nat)
    requires i < |s.inbounds| && k < |s.inbounds[i].clients|
  {
    var email := s.inbounds[i].clients[k].email;
    email in s.traffic && Mirrors(s.traffic[email], s.inbounds[i].clients[k]) ==>
      email in n.traffic && i < |n.inbounds| && k < |n.inbounds[i].clients| && Mirrors(n.traffic[email], n.inbounds[i].clients[k])
  }

  lemma SameShapeLists(a: Inbound, b: Inbound, email: string)
    requires SameShape(a, b) && Lists(a, email)
    ensures Lists(b, email)
  {
    var k :| 0 <= k < |a.clients| && a.clients[k].email == email;
    assert b.clients[k].email == email;
  }

  lemma ReshapedListing(s: Snapshot, n: Snapshot, i: nat, k: nat)
    requires InLine(s) && Reshapes(s, n) && i < |n.inbounds| && k < |n.inbounds[i].clients|
    ensures var d := n.inbounds[i].clients[k]; d.email in n.traffic && Mirrors(n.traffic[d.email], d)
  {
    assert SameShape(s.inbounds[i], n.inbounds[i]);
    assert StaysInStep(s, n, i, k);
  }

  lemma ReshapedInLine(s: Snapshot, n: Snapshot)
    requires InLine(s) && Reshapes(s, n)
    ensures InLine(n)
  {
    forall e | e in n.traffic ensures exists i :: 0 <= i < |n.inbounds| && Lists(n.inbounds[i], e) {
      var i :| 0 <= i < |s.inbounds| && Lists(s.inbounds[i], e);
      SameShapeLists(s.inbounds[i], n.inbounds[i], e);
    }
    forall i, k | 0 <= i < |n.inbounds| && 0 <= k < |n.inbounds[i].clients|
      ensures var d := n.inbounds[i].clients[k]; d.email in n.traffic && Mirrors(n.traffic[d.email], d)
    {
      ReshapedListing(s, n, i, k);
    }
  }

  lemma ReshapedDraft(s: Snapshot, n: Snapshot)
    requires Draft(s) && Reshapes(s, n)
    ensures Draft(n)
  {
  }

  lemma ReshapedStructured(s: Snapshot, n: Snapshot)
    requires Structured(s) && Reshapes(s, n)
    ensures Structured(n)
  {
    forall i | 0 <= i < |s.inbounds| ensures ValidInbound(n.inbounds[i]) {
      SameClientsValid(s.inbounds[i], n.inbounds[i]);
    }
  }

  lemma ReshapedOk(s: Snapshot, n: Snapshot)
    requires StateOk(s) && Reshapes(s, n)
    ensures StateOk(n)
  {
    ReshapedDraft(s, n);
    ReshapedStructured(s, n);
    ReshapedInLine(s, n);
  }

  lemma CreditedShape(rows: map<string, Traffic>, ib: Inbound, values: Counters, baseline: Counters, now: int)
    ensures SameShape(ib, CreditedInbound(rows, ib, values, baseline, now))
  {
  }

  lemma CreditedInStep(s: Snapshot, values: Counters, baseline: Counters, now: int, i: nat, k: nat)
    requires i < |s.inbounds| && k < |s.inbounds[i].clients|
    ensures StaysInStep(s, Credited(s, values, baseline, now), i, k)
  {
  }

  lemma CreditedReshapes(s: Snapshot, values: Counters, baseline: Counters, now: int)
    ensures Reshapes(s, Credited(s, values, baseline, now))
  {
    var n := Credited(s, values, baseline, now);
    forall i | 0 <= i < |s.inbounds| ensures SameShape(s.inbounds[i], n.inbounds[i]) {
      CreditedShape(s.traffic, s.inbounds[i], values, baseline, now);
    }
    forall i, k | 0 <= i < |s.inbounds| && 0 <= k < |s.inbounds[i].clients| ensures StaysInStep(s, n, i, k) {
      CreditedInStep(s, values, baseline, now, i, k);
    }
  }

  lemma EnforcedInStep(s: Snapshot, now: int, i: nat, k: nat)
    requires i < |s.inbounds| && k < |s.inbounds[i].clients|
    ensures StaysInStep(s, Enforced(s, now), i, k)
  {
  }

  lemma EnforcedReshapes(s: Snapshot, now: int)
    ensures Reshapes(s, Enforced(s, now))
  {
    var n := Enforced(s, now);
    forall i, k | 0 <= i < |s.inbounds| && 0 <= k < |s.inbounds[i].clients| ensures StaysInStep(s, n, i, k) {
      EnforcedInStep(s, now, i, k);
    }
  }

  lemma PrunedOk(s: Snapshot, now: int)
    requires StateOk(s)
    ensures StateOk(Pruned(s, now))
  {
    SubsetCard(Pruned(s, now).globals.Keys, s.globals.Keys);
  }

  /** Whole-state invariant: every sample keeps it, whatever the counters say. */
  lemma SampleKeepsStateOk(s: Snapshot, values: Counters, baseline: Counters, now: int)
    requires StateOk(s)
    ensures StateOk(Sampled(s, values, baseline, now))
  {
    var c := Credited(s, values, baseline, now);
    CreditedReshapes(s, values, baseline, now);
    ReshapedOk(s, c);
    EnforcedReshapes(c, now);
    ReshapedOk(c, Enforced(c, now));
    PrunedOk(Enforced(c, now), now);
  }

  // ---------- Loading ----------

  function Fresh(guid: string): Snapshot { Snapshot(false, 0, 1, guid, 1, 1, [], map[], map[]) }

  lemma FreshIsOk(guid: string)
    requires guid != ""
    ensures StateOk(Fresh(guid)) && Fresh(guid).guid == guid && !Fresh(guid).running
    ensures Fresh(guid).inbounds == [] && Fresh(guid).traffic == map[] && Fresh(guid).globals == map[]
    ensures Fresh(guid).schema == 1 && Fresh(guid).nextId == 1 && Fresh(guid).nextClientId == 1
  {
  }

  /** What the loader requires of a stored state. */
  predicate LoadAccepts(s: Snapshot) {
    && s.schema == 1 && s.guid != "" && s.nextId >= 1 && s.nextClientId >= 1
    && |s.inbounds| <= MAX_INBOUNDS && |s.traffic| <= MAX_CLIENTS && |s.globals| <= MAX_MASTERS
    && (forall i :: 0 <= i < |s.inbounds| ==> 1 <= s.inbounds[i].id < s.nextId && ValidInbound(s.inbounds[i]))
    && DistinctIds(s.inbounds) && DistinctPorts(s.inbounds) && DistinctTags(s.inbounds)
    && (forall e :: e in s.traffic ==>
         var t := s.traffic[e]; t.email == e && t.up >= 0 && t.down >= 0 && 1 <= t.id < s.nextClientId)
    && (forall m :: m in s.globals ==> |s.globals[m]| <= MAX_CLIENTS)
    && (forall m :: m in s.globals ==> forall e :: e in s.globals[m] ==> s.globals[m][e].up >= 0 && s.globals[m][e].down >= 0)
  }

  lemma SubsetCard<T>(a: set<T>, b: set<T>)
    requires a <= b
    ensures |a| <= |b|
  {
    assert b == a + (b - a);
  }

  /** The loader accepts every state that has the invariant. */
  lemma LoaderAccepts(s: Snapshot)
    requires StateOk(s)
    ensures LoadAccepts(s)
  {
    forall m | m in s.globals
      ensures |s.globals[m]| <= MAX_CLIENTS
    {
      SubsetCard(s.globals[m].Keys, s.traffic.Keys);
      assert |s.globals[m]| == |s.globals[m].Keys|;
    }
  }

  /** The invariant as a value, for use where its parts do not matter. */
  ghost function Sound(): Snapshot -> bool { s => StateOk(s) }

  lemma SoundFacts(s: Snapshot)
    requires Sound()(s)
    ensures DistinctTags(s.inbounds)
    ensures forall e :: e in s.traffic ==> s.traffic[e].email == e
  {
  }

  lemma SampledIsSound(s: Snapshot, values: Counters, baseline: Counters, now: int)
    requires Sound()(s)
    ensures Sound()(Sampled(s, values, baseline, now))
  {
    SampleKeepsStateOk(s, values, baseline, now);
  }

  lemma CommittedIsSound(config: Config, s: Snapshot, e: Edit)
    requires Sound()(s) && Committed(config, s, e).Some?
    ensures Sound()(Committed(config, s, e).value)
  {
    CommitKeepsStateOk(config, s, e);
  }

  lemma DesiredTags(s: Snapshot, now: int)
    requires Sound()(s)
    ensures UniqueTags(Desired(s, now))
  {
    SoundFacts(s);
    TableTags(s, |s.inbounds|, now);
  }
}
