/** Bringing the traffic rows in line with the clients the inbounds list. */
module Sync {
  import opened Options
  import opened NodeTypes

  /** One client as listed by one inbound. */
  datatype Listing = Listing(inbound: int, client: Client)

  function ListingsOf(ib: Inbound): seq<Listing> {
    seq(|ib.clients|, i requires 0 <= i < |ib.clients| => Listing(ib.id, ib.clients[i]))
  }

  function Listings(ibs: seq<Inbound>): seq<Listing> {
    if ibs == [] then [] else ListingsOf(ibs[0]) + Listings(ibs[1..])
  }

  /** The fields every inbound sharing a client must agree on. */
  predicate Agree(a: Client, b: Client) {
    a.id == b.id && a.total == b.total && a.expiry == b.expiry && a.enable == b.enable
  }

  predicate Mirrors(t: Traffic, c: Client) {
    t.email == c.email && t.uuid == c.id && t.enable == c.enable && t.total == c.total && t.expiry == c.expiry
  }

  datatype Progress = Progress(seen: map<string, Client>, traffic: map<string, Traffic>, nextClientId: int)

  function NewRow(id: int, email: string): Traffic {
    Traffic(id, 0, email, "", false, 0, 0, 0, 0, 0)
  }

  function Mirror(t: Traffic, l: Listing): Traffic {
    t.(inboundId := l.inbound, uuid := l.client.id, enable := l.client.enable, total := l.client.total, expiry := l.client.expiry)
  }

  function Step(a: Progress, l: Listing): Progress {
    var email := l.client.email;
    var known := email in a.traffic;
    var row := if known then a.traffic[email] else NewRow(a.nextClientId, email);
    Progress(a.seen[email := l.client], a.traffic[email := Mirror(row, l)], if known then a.nextClientId else a.nextClientId + 1)
  }

  /** All listings in order; None when two listings of one email disagree. */
  function Fold(a: Progress, ls: seq<Listing>): Option<Progress>
    decreases |ls|
  {
    if ls == [] then Some(a)
    else if ls[0].client.email in a.seen && !Agree(a.seen[ls[0].client.email], ls[0].client) then None
    else Fold(Step(a, ls[0]), ls[1..])
  }

  function Start(s: Snapshot): Progress { Progress(map[], s.traffic, s.nextClientId) }

  /** The overlay rows without those of the dropped emails. */
  function Cleared(globals: map<string, map<string, Global>>, dropped: set<string>): map<string, map<string, Global>> {
    map m | m in globals :: globals[m] - dropped
  }

  function Finish(s: Snapshot, a: Progress): Snapshot {
    s.(traffic := a.traffic - (a.traffic.Keys - a.seen.Keys),
       nextClientId := a.nextClientId,
       globals := Cleared(s.globals, a.traffic.Keys - a.seen.Keys))
  }

  /** The state with its rows in line, or None when it is refused. */
  function Synced(s: Snapshot): Option<Snapshot> {
    match Fold(Start(s), Listings(s.inbounds))
    case None => None
    case Some(a) => if |a.seen| > MAX_CLIENTS then None else Some(Finish(s, a))
  }

  // ---------- What a fold keeps and establishes ----------

  /** Rows carry their own email, non-negative counters and an id of their own below next. */
  ghost predicate RowsOk(rows: map<string, Traffic>, next: int) {
    && (forall e :: e in rows ==> rows[e].email == e && rows[e].up >= 0 && rows[e].down >= 0 && 1 <= rows[e].id < next)
    && (forall e, f :: e in rows && f in rows && e != f ==> rows[e].id != rows[f].id)
  }

  ghost predicate SeenOk(a: Progress) {
    forall e :: e in a.seen ==> a.seen[e].email == e && e in a.traffic && Mirrors(a.traffic[e], a.seen[e])
  }

  /** b continues a: nothing seen changes, known rows keep id and usage, new rows start at zero with fresh ids. */
  ghost predicate Continues(a: Progress, b: Progress) {
    && a.nextClientId <= b.nextClientId
    && (forall e :: e in a.seen ==> e in b.seen && Agree(a.seen[e], b.seen[e]))
    && (forall e :: e in a.traffic ==> e in b.traffic && SameUsage(a.traffic[e], b.traffic[e]))
    && (forall e :: e in a.traffic && e !in b.seen ==> b.traffic[e] == a.traffic[e])
    && (forall e :: e in b.traffic && e !in a.traffic ==> e in b.seen && Starts(b.traffic[e], a.nextClientId))
  }

  /** A new row: nothing used, never online, a fresh id. */
  predicate Starts(t: Traffic, next: int) { t.up == 0 && t.down == 0 && t.lastOnline == 0 && t.id >= next }

  predicate SameUsage(t: Traffic, u: Traffic) {
    u.id == t.id && u.email == t.email && u.up == t.up && u.down == t.down && u.lastOnline == t.lastOnline
  }

  lemma StepRows(a: Progress, l: Listing)
    requires RowsOk(a.traffic, a.nextClientId) && a.nextClientId >= 1
    ensures var b := Step(a, l); RowsOk(b.traffic, b.nextClientId) && b.nextClientId >= 1
  {
  }

  lemma StepFacts(a: Progress, l: Listing)
    requires RowsOk(a.traffic, a.nextClientId) && SeenOk(a) && a.nextClientId >= 1
    requires l.client.email in a.seen ==> Agree(a.seen[l.client.email], l.client)
    ensures var b := Step(a, l); SeenOk(b) && Continues(a, b)
  {
  }

  lemma ContinuesTrans(a: Progress, b: Progress, c: Progress)
    requires Continues(a, b) && Continues(b, c)
    ensures Continues(a, c)
  {
    forall e | e in c.traffic && e !in a.traffic
      ensures e in c.seen && Starts(c.traffic[e], a.nextClientId)
    {
      if e in b.traffic { assert SameUsage(b.traffic[e], c.traffic[e]); }
    }
  }

  lemma {:induction false} FoldKeeps(a: Progress, ls: seq<Listing>)
    requires RowsOk(a.traffic, a.nextClientId) && SeenOk(a) && a.nextClientId >= 1 && Fold(a, ls).Some?
    ensures var b := Fold(a, ls).value;
      RowsOk(b.traffic, b.nextClientId) && SeenOk(b) && Continues(a, b) && b.nextClientId >= 1
    decreases |ls|
  {
    if ls != [] {
      var m := Step(a, ls[0]);
      StepRows(a, ls[0]);
      StepFacts(a, ls[0]);
      FoldKeeps(m, ls[1..]);
      ContinuesTrans(a, m, Fold(a, ls).value);
    }
  }

  /** After the fold exactly the listed emails are seen, each with the agreed fields. */
  lemma {:induction false} FoldSees(a: Progress, ls: seq<Listing>)
    requires RowsOk(a.traffic, a.nextClientId) && SeenOk(a) && a.nextClientId >= 1 && Fold(a, ls).Some?
    ensures var b := Fold(a, ls).value;
      && (forall l :: l in ls ==> l.client.email in b.seen && Agree(l.client, b.seen[l.client.email]))
      && (forall e :: e in b.seen ==> e in a.seen || exists l :: l in ls && l.client.email == e)
    decreases |ls|
  {
    if ls != [] {
      var m := Step(a, ls[0]);
      StepRows(a, ls[0]);
      StepFacts(a, ls[0]);
      FoldSees(m, ls[1..]);
      FoldKeeps(m, ls[1..]);
      var b := Fold(a, ls).value;
      var email := ls[0].client.email;
      assert email in m.seen && m.seen[email] == ls[0].client;
      assert forall l :: l in ls ==> l == ls[0] || l in ls[1..];
      forall e | e in b.seen && e !in a.seen ensures exists l :: l in ls && l.client.email == e {
        if e == email { assert ls[0] in ls; }
      }
    }
  }

  /** The inbound of the last listing of an email. */
  function LastListedAt(ls: seq<Listing>, email: string): Option<int>
    decreases |ls|
  {
    if ls == [] then None
    else
      var later := LastListedAt(ls[1..], email);
      if later.Some? then later else if ls[0].client.email == email then Some(ls[0].inbound) else None
  }

  /** A listed row ends up with the inbound that lists it last. */
  lemma {:induction false} FoldPlaces(a: Progress, ls: seq<Listing>, email: string)
    requires Fold(a, ls).Some?
    ensures var b, at := Fold(a, ls).value, LastListedAt(ls, email);
      && (at.Some? ==> email in b.traffic && b.traffic[email].inboundId == at.value)
      && (at.None? ==> (email in b.traffic <==> email in a.traffic) && (email in a.traffic ==> b.traffic[email] == a.traffic[email]))
      && (at.None? ==> (email in b.seen <==> email in a.seen))
    decreases |ls|
  {
    if ls != [] { FoldPlaces(Step(a, ls[0]), ls[1..], email); }
  }

  /** When the listings agree the fold goes through, and the conflict that stops it is real. */
  lemma {:induction false} FoldRefusesOnlyConflicts(a: Progress, ls: seq<Listing>)
    ensures Fold(a, ls).None? <==>
      || (exists i :: 0 <= i < |ls| && ls[i].client.email in a.seen && !Agree(a.seen[ls[i].client.email], ls[i].client))
      || (exists i, k :: 0 <= i < k < |ls| && ls[i].client.email == ls[k].client.email && !Agree(ls[i].client, ls[k].client))
    decreases |ls|
  {
    if ls != [] {
      var email := ls[0].client.email;
      if !(email in a.seen && !Agree(a.seen[email], ls[0].client)) {
        var rest, m := ls[1..], Step(a, ls[0]);
        FoldRefusesOnlyConflicts(m, rest);
        assert forall i :: 0 <= i < |rest| ==> rest[i] == ls[i + 1];
        assert forall i :: 1 <= i < |ls| ==> ls[i] == rest[i - 1];
      }
    }
  }

  /** The emails listed anywhere. */
  function Emails(ls: seq<Listing>): set<string> { set l | l in ls :: l.client.email }

  predicate Conflict(ls: seq<Listing>, i: nat, k: nat) {
    i < k < |ls| && ls[i].client.email == ls[k].client.email && !Agree(ls[i].client, ls[k].client)
  }

  /** The sync refuses a state exactly when two listings of one email disagree or more than 64 emails are listed. */
  lemma SyncRefusesExactly(s: Snapshot)
    requires RowsOk(s.traffic, s.nextClientId) && s.nextClientId >= 1
    ensures Synced(s).None? <==>
      (exists i, k :: Conflict(Listings(s.inbounds), i, k)) || |Emails(Listings(s.inbounds))| > MAX_CLIENTS
  {
    var ls := Listings(s.inbounds);
    FoldRefusesOnlyConflicts(Start(s), ls);
    if Fold(Start(s), ls).Some? {
      FoldSees(Start(s), ls);
      var a := Fold(Start(s), ls).value;
      assert a.seen.Keys == Emails(ls);
      assert |a.seen| == |a.seen.Keys|;
      forall i: nat, k: nat ensures !Conflict(ls, i, k) {}
    } else {
      var i, k :| 0 <= i < k < |ls| && ls[i].client.email == ls[k].client.email && !Agree(ls[i].client, ls[k].client);
      assert Conflict(ls, i, k);
    }
  }

  lemma {:induction false} ListingIn(ibs: seq<Inbound>, l: Listing)
    ensures l in Listings(ibs) <==> exists ib :: ib in ibs && ib.id == l.inbound && l.client in ib.clients
  {
    if ibs != [] {
      ListingIn(ibs[1..], l);
      var first := ListingsOf(ibs[0]);
      assert l in Listings(ibs) <==> l in first || l in Listings(ibs[1..]);
      if l.inbound == ibs[0].id && l.client in ibs[0].clients {
        var i :| 0 <= i < |ibs[0].clients| && ibs[0].clients[i] == l.client;
        assert first[i] == l;
      }
      assert forall ib :: ib in ibs <==> ib == ibs[0] || ib in ibs[1..];
    }
  }
}
