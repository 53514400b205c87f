/** What each edit changes, and that it changes nothing else. */
module EditEffects {
  import opened Options
  import opened NodeTypes
  import opened StatKeys
  import opened Sync
  import opened Text
  import opened Edits

  // ---------- Clients ----------

  /** Whether listing x is on an inbound after the change, by what was there before. */
  ghost predicate ListedAfter(before: seq<Client>, oldEmail: string, c: Client, op: ClientOp, selected: bool, x: Client) {
    match op
    case Delete => x in before && x.email != oldEmail
    case Detach => x in before && !(selected && x.email == oldEmail)
    case Update => (x in before && x.email != oldEmail) || (x == c && exists p :: p in before && p.email == oldEmail)
    case Add => (x in before && !(selected && x.email in {oldEmail, c.email})) || (x == c && selected)
  }

  lemma {:induction false} KeptAre(cs: seq<Client>, oldEmail: string, c: Client, op: ClientOp, selected: bool, x: Client)
    ensures x in KeepAll(cs, oldEmail, c, op, selected) <==> exists p :: p in cs && x in Keep(p, oldEmail, c, op, selected)
  {
    if cs != [] {
      var n := |cs| - 1;
      KeptAre(cs[..n], oldEmail, c, op, selected, x);
      assert forall p :: p in cs <==> p in cs[..n] || p == cs[n];
    }
  }

  /** The change of one inbound's clients: removed, replaced, detached or added exactly as the operation says. */
  lemma ChangedListings(ib: Inbound, oldEmail: string, c: Client, ids: seq<int>, op: ClientOp, x: Client)
    ensures var sel := Selected(ib, ids);
      x in ChangedInbound(ib, oldEmail, c, ids, op).clients <==> ListedAfter(ib.clients, oldEmail, c, op, sel, x)
    ensures ChangedInbound(ib, oldEmail, c, ids, op).(clients := []) == ib.(clients := [])
  {
    var sel := Selected(ib, ids);
    KeptAre(ib.clients, oldEmail, c, op, sel, x);
    if ListedAfter(ib.clients, oldEmail, c, op, sel, x) {
      if op.Update? && x == c {
        if p :| p in ib.clients && p.email == oldEmail { assert x in Keep(p, oldEmail, c, op, sel); }
      }
      if op.Add? && x == c && sel && Found(ib.clients, oldEmail, c, op) {
        var i :| 0 <= i < |ib.clients| && Matches(ib.clients[i], oldEmail, c, op);
        assert x in Keep(ib.clients[i], oldEmail, c, op, sel);
      }
      if x in ib.clients && !Matches(x, oldEmail, c, op) { assert x in Keep(x, oldEmail, c, op, sel); }
      if x in ib.clients && op in {Detach, Add} && !sel { assert x in Keep(x, oldEmail, c, op, sel); }
    }
  }

  /** Where every listing leads to exactly one, these come in the same order. */
  lemma {:induction false} KeptInPlace(cs: seq<Client>, oldEmail: string, c: Client, op: ClientOp, selected: bool, to: Client -> Client)
    requires forall k :: 0 <= k < |cs| ==> Keep(cs[k], oldEmail, c, op, selected) == [to(cs[k])]
    ensures var after := KeepAll(cs, oldEmail, c, op, selected);
      |after| == |cs| && forall k :: 0 <= k < |cs| ==> after[k] == to(cs[k])
  {
    if cs != [] { KeptInPlace(cs[..|cs| - 1], oldEmail, c, op, selected, to); }
  }

  lemma {:induction false} KeptAround(xs: seq<Client>, ys: seq<Client>, oldEmail: string, c: Client, op: ClientOp, selected: bool)
    ensures KeepAll(xs + ys, oldEmail, c, op, selected) ==
      KeepAll(xs, oldEmail, c, op, selected) + KeepAll(ys, oldEmail, c, op, selected)
    decreases |ys|
  {
    if ys == [] {
      assert xs + ys == xs;
    } else {
      var n := |ys| - 1;
      KeptAround(xs, ys[..n], oldEmail, c, op, selected);
      KeptLast(xs, ys, oldEmail, c, op, selected);
      Grouped(KeepAll(xs, oldEmail, c, op, selected), KeepAll(ys[..n], oldEmail, c, op, selected),
              Keep(ys[n], oldEmail, c, op, selected));
    }
  }

  lemma KeptLast(xs: seq<Client>, ys: seq<Client>, oldEmail: string, c: Client, op: ClientOp, selected: bool)
    requires ys != []
    ensures KeepAll(xs + ys, oldEmail, c, op, selected) ==
      KeepAll(xs + ys[..|ys| - 1], oldEmail, c, op, selected) + Keep(ys[|ys| - 1], oldEmail, c, op, selected)
  {
    var n := |ys| - 1;
    assert (xs + ys)[..|xs| + n] == xs + ys[..n] && (xs + ys)[|xs| + n] == ys[n];
  }

  /** The listings of one inbound after a change, in order. Add and detach leave an inbound alone that is not named. A
      listing is replaced in its place; an added client that was not listed comes last. */
  lemma ChangeKeepsOrder(ib: Inbound, oldEmail: string, c: Client, ids: seq<int>, op: ClientOp)
    requires op in {Add, Detach} ==> ids != []
    ensures var before, after := ib.clients, ChangedInbound(ib, oldEmail, c, ids, op).clients;
      && (op in {Add, Detach} && ib.id !in ids ==> after == before)
      && (op.Update? ==>
            |after| == |before| && forall k :: 0 <= k < |before| ==> after[k] == if before[k].email == oldEmail then c else before[k])
      && (op.Add? && ib.id in ids ==>
            && |after| == |before| + (if exists k :: 0 <= k < |before| && before[k].email in {oldEmail, c.email} then 0 else 1)
            && (forall k :: 0 <= k < |before| ==> after[k] == if before[k].email in {oldEmail, c.email} then c else before[k])
            && (|after| > |before| ==> after[|before|] == c))
  {
    var before, sel := ib.clients, Selected(ib, ids);
    if op in {Add, Detach} && ib.id !in ids {
      KeptInPlace(before, oldEmail, c, op, sel, p => p);
    } else if op.Update? {
      KeptInPlace(before, oldEmail, c, op, sel, (p: Client) => if p.email == oldEmail then c else p);
    } else if op.Add? {
      KeptInPlace(before, oldEmail, c, op, sel, (p: Client) => if p.email in {oldEmail, c.email} then c else p);
    }
  }

  /** Delete, and detach from an inbound named, take out the one listing of the email and leave the others in order. */
  lemma RemovalKeepsOrder(ib: Inbound, oldEmail: string, c: Client, ids: seq<int>, op: ClientOp, xs: seq<Client>, p: Client, ys: seq<Client>)
    requires op.Delete? || (op.Detach? && ib.id in ids)
    requires ib.clients == xs + [p] + ys && p.email == oldEmail
    requires (forall k :: 0 <= k < |xs| ==> xs[k].email != oldEmail) && (forall k :: 0 <= k < |ys| ==> ys[k].email != oldEmail)
    ensures ChangedInbound(ib, oldEmail, c, ids, op).clients == xs + ys
  {
    OneOfManyGoes(xs, p, ys, oldEmail, c, op, Selected(ib, ids));
  }

  lemma OneOfManyGoes(xs: seq<Client>, p: Client, ys: seq<Client>, oldEmail: string, c: Client, op: ClientOp, selected: bool)
    requires p.email == oldEmail && (op.Delete? || (op.Detach? && selected))
    requires (forall k :: 0 <= k < |xs| ==> xs[k].email != oldEmail) && (forall k :: 0 <= k < |ys| ==> ys[k].email != oldEmail)
    ensures KeepAll(xs + [p] + ys, oldEmail, c, op, selected) == xs + ys
  {
    OthersStay(xs, oldEmail, c, op, selected);
    OthersStay(ys, oldEmail, c, op, selected);
    KeptAround(xs + [p], ys, oldEmail, c, op, selected);
    KeptAround(xs, [p], oldEmail, c, op, selected);
    OneGoes(p, oldEmail, c, op, selected);
    assert xs + [] == xs;
  }

  lemma OthersStay(cs: seq<Client>, oldEmail: string, c: Client, op: ClientOp, selected: bool)
    requires op in {Delete, Detach} && forall k :: 0 <= k < |cs| ==> cs[k].email != oldEmail
    ensures KeepAll(cs, oldEmail, c, op, selected) == cs
  {
    KeptInPlace(cs, oldEmail, c, op, selected, p => p);
  }

  lemma OneGoes(p: Client, oldEmail: string, c: Client, op: ClientOp, selected: bool)
    requires p.email == oldEmail && (op.Delete? || (op.Detach? && selected))
    ensures KeepAll([p], oldEmail, c, op, selected) == []
  {
    assert [p][..0] == [];
  }

  /** A client change touches only listings: add and detach those on the inbounds named, update and delete those on
      all; rows stay, but for a rename, which moves one row with its id and usage and drops its overlays. */
  lemma ClientChangeEffect(s: Snapshot, oldEmail: string, c: Client, ids: seq<int>, op: ClientOp, n: Snapshot)
    requires ChangeResult(s, oldEmail, c, ids, op) == Some(n)
    ensures |n.inbounds| == |s.inbounds|
    ensures forall i :: 0 <= i < |s.inbounds| && op in {Add, Detach} && s.inbounds[i].id !in ids ==> n.inbounds[i] == s.inbounds[i]
    ensures forall i, x :: 0 <= i < |s.inbounds| ==>
      (x in n.inbounds[i].clients <==> ListedAfter(s.inbounds[i].clients, oldEmail, c, op, s.inbounds[i].id in ids, x))
    ensures forall i :: 0 <= i < |s.inbounds| ==> n.inbounds[i].(clients := []) == s.inbounds[i].(clients := [])
    ensures n.(inbounds := [], traffic := map[], globals := map[]) == s.(inbounds := [], traffic := map[], globals := map[])
    ensures if op.Update? && c.email != oldEmail then
        && oldEmail !in n.traffic && c.email !in s.traffic
        && n.traffic == (s.traffic - {oldEmail})[c.email := s.traffic[oldEmail].(email := c.email)]
        && n.globals.Keys == s.globals.Keys && forall m :: m in s.globals ==> n.globals[m] == s.globals[m] - {oldEmail}
      else n.traffic == s.traffic && n.globals == s.globals
  {
    forall i, x | 0 <= i < |s.inbounds|
      ensures x in n.inbounds[i].clients <==> ListedAfter(s.inbounds[i].clients, oldEmail, c, op, s.inbounds[i].id in ids, x)
    {
      ChangedListings(s.inbounds[i], oldEmail, c, ids, op, x);
    }
    forall i | 0 <= i < |s.inbounds|
      ensures n.inbounds[i].(clients := []) == s.inbounds[i].(clients := [])
      ensures op in {Add, Detach} && s.inbounds[i].id !in ids ==> n.inbounds[i] == s.inbounds[i]
    {
      ChangedListings(s.inbounds[i], oldEmail, c, ids, op, c);
      ChangeKeepsOrder(s.inbounds[i], oldEmail, c, ids, op);
    }
  }

  /** After an add each inbound named lists the client as sent and no other under its old or new email; after a detach
      none of them lists the email. */
  lemma NamedInboundsChange(s: Snapshot, oldEmail: string, c: Client, ids: seq<int>, op: ClientOp, n: Snapshot, i: nat)
    requires ChangeResult(s, oldEmail, c, ids, op) == Some(n) && i < |s.inbounds| && s.inbounds[i].id in ids
    ensures op.Add? ==> c in n.inbounds[i].clients
    ensures op.Add? ==> forall x :: x in n.inbounds[i].clients && x.email in {oldEmail, c.email} ==> x == c
    ensures op.Detach? ==> forall x :: x in n.inbounds[i].clients ==> x.email != oldEmail
  {
    ClientChangeEffect(s, oldEmail, c, ids, op, n);
    assert op.Add? ==> ListedAfter(s.inbounds[i].clients, oldEmail, c, op, true, c);
  }

  // ---------- Inbounds ----------

  lemma {:induction false} TagOwner(ibs: seq<Inbound>, tag: string)
    requires forall i :: 0 <= i < |ibs| ==> ibs[i].id >= 1
    ensures IdOfTag(ibs, tag) == 0 <==> forall i :: 0 <= i < |ibs| ==> ibs[i].tag != tag
    ensures IdOfTag(ibs, tag) != 0 ==> exists i :: 0 <= i < |ibs| && ibs[i].tag == tag && ibs[i].id == IdOfTag(ibs, tag)
  {
    if ibs != [] && ibs[0].tag != tag {
      TagOwner(ibs[1..], tag);
      if IdOfTag(ibs, tag) != 0 {
        var i :| 0 <= i < |ibs[1..]| && ibs[1..][i].tag == tag && ibs[1..][i].id == IdOfTag(ibs, tag);
        assert ibs[i + 1].tag == tag;
      }
      if i :| 1 <= i < |ibs| && ibs[i].tag == tag { assert ibs[1..][i - 1].tag == tag; }
    }
  }

  /** Exactly one inbound differs, or one is new. */
  predicate Replaces(s: Snapshot, n: Snapshot, j: nat) {
    && |n.inbounds| == |s.inbounds| && j < |s.inbounds| && n.nextId == s.nextId
    && (forall i :: 0 <= i < |s.inbounds| && i != j ==> n.inbounds[i] == s.inbounds[i])
    && n.inbounds[j].id == s.inbounds[j].id && n.inbounds[j].up == s.inbounds[j].up && n.inbounds[j].down == s.inbounds[j].down
  }

  predicate Appends(s: Snapshot, n: Snapshot) {
    && |n.inbounds| == |s.inbounds| + 1 && n.nextId == s.nextId + 1
    && (forall i :: 0 <= i < |s.inbounds| ==> n.inbounds[i] == s.inbounds[i])
    && var last := n.inbounds[|s.inbounds|]; last.id == s.nextId && last.up == 0 && last.down == 0
  }

  /** Where a put inbound goes: to the one with the id or tag, or to the end. */
  function PutIndex(s: Snapshot, tag: string, id: int): nat {
    var target := if id == 0 then IdOfTag(s.inbounds, tag) else id;
    if target > 0 then Position(s.inbounds, target) else |s.inbounds|
  }

  lemma PutIndexIs(s: Snapshot, tag: string, id: int)
    requires (forall i :: 0 <= i < |s.inbounds| ==> s.inbounds[i].id >= 1) && DistinctIds(s.inbounds)
    ensures var j := PutIndex(s, tag, id);
      && j <= |s.inbounds|
      && (id > 0 && j < |s.inbounds| ==> s.inbounds[j].id == id)
      && (id == 0 ==> (j < |s.inbounds| <==> exists i :: 0 <= i < |s.inbounds| && s.inbounds[i].tag == tag))
      && (id == 0 && j < |s.inbounds| ==> s.inbounds[j].tag == tag)
  {
    TagOwner(s.inbounds, tag);
    var target := IdOfTag(s.inbounds, tag);
    if id == 0 && target != 0 {
      var i :| 0 <= i < |s.inbounds| && s.inbounds[i].tag == tag && s.inbounds[i].id == target;
      forall k | 0 <= k < |s.inbounds| && k != i ensures s.inbounds[k].id != target {}
      assert PutIndex(s, tag, id) == i;
    }
  }

  /** Putting an inbound replaces the one with the id, or without an id the one with the tag, which keeps its id and
      counters; otherwise a new one is added with the next id. Rows are left to the sync. */
  lemma PutEffect(config: Config, s: Snapshot, sent: Inbound, id: int, n: Snapshot)
    requires (forall i :: 0 <= i < |s.inbounds| ==> s.inbounds[i].id >= 1) && DistinctIds(s.inbounds)
    requires PutResult(config, s, sent, id) == Some(n)
    ensures n.traffic == s.traffic && n.globals == s.globals && n.nextClientId == s.nextClientId
    ensures var j := PutIndex(s, sent.tag, id);
      if id > 0 || (id == 0 && exists i :: 0 <= i < |s.inbounds| && s.inbounds[i].tag == sent.tag)
      then Replaces(s, n, j) && (if id > 0 then s.inbounds[j].id == id else s.inbounds[j].tag == sent.tag)
      else Appends(s, n) && j == |s.inbounds|
  {
    PutIndexIs(s, sent.tag, id);
    TagOwner(s.inbounds, sent.tag);
    assert WithDefault(config, sent).tag == sent.tag;
    var j := PutIndex(s, sent.tag, id);
    assert if j < |s.inbounds| then Replaces(s, n, j) else Appends(s, n);
  }

  lemma PutIs(config: Config, s: Snapshot, sent: Inbound, id: int, n: Snapshot)
    requires PutResult(config, s, sent, id) == Some(n)
    ensures var j := PutIndex(s, sent.tag, id);
      j < |n.inbounds| && n.inbounds[j] == WithDefault(config, sent).(id := n.inbounds[j].id, up := n.inbounds[j].up, down := n.inbounds[j].down)
  {
  }

  lemma DefaultIs(config: Config, sent: Inbound)
    ensures WithDefault(config, sent) ==
      if sent.clients != [] || sent.protocol != "vless" || config.defaultClient == None then sent
      else sent.(clients := [config.defaultClient.value])
  {
  }

  /** The content is what was sent; only an inbound sent without clients gets the default client, if there is one. */
  lemma PutContent(config: Config, s: Snapshot, sent: Inbound, id: int, n: Snapshot)
    requires PutResult(config, s, sent, id) == Some(n)
    ensures var j := PutIndex(s, sent.tag, id);
      && j < |n.inbounds|
      && var put := n.inbounds[j].(id := sent.id, up := sent.up, down := sent.down);
         if sent.clients != [] || sent.protocol != "vless" || config.defaultClient == None then put == sent
         else put == sent.(clients := [config.defaultClient.value])
  {
    PutIs(config, s, sent, id, n);
    DefaultIs(config, sent);
  }

  /** Deleting an inbound removes the one with the id, and nothing else. */
  lemma DeleteEffect(s: Snapshot, id: int, x: Inbound)
    requires DistinctIds(s.inbounds)
    ensures x in DeleteResult(s, id).inbounds <==> x in s.inbounds && x.id != id
    ensures DeleteResult(s, id).(inbounds := []) == s.(inbounds := [])
  {
    var j := Position(s.inbounds, id);
    if j < |s.inbounds| {
      var n := s.inbounds[..j] + s.inbounds[j + 1..];
      forall i | 0 <= i < |s.inbounds| && i != j ensures s.inbounds[i].id != id { assert s.inbounds[i].id != s.inbounds[j].id; }
      forall k | 0 <= k < |n| ensures n[k].id != id && n[k] in s.inbounds { assert n[k] == s.inbounds[if k < j then k else k + 1]; }
      if x in s.inbounds && x.id != id {
        var i :| 0 <= i < |s.inbounds| && s.inbounds[i] == x;
        assert n[if i < j then i else i - 1] == x;
      }
    }
  }

  // ---------- Resets ----------

  /** Whether the reset of some emails reaches this one. */
  predicate Reaches(s: Snapshot, emails: seq<string>, email: string) { email in emails && email in s.traffic }

  function ResetRow(t: Traffic): Traffic { t.(up := 0, down := 0, enable := true) }

  function ResetListing(s: Snapshot, emails: seq<string>, c: Client): Client {
    if Reaches(s, emails, c.email) then c.(enable := true) else c
  }

  ghost predicate RowsReset(s: Snapshot, emails: seq<string>, n: Snapshot) {
    && n.traffic.Keys == s.traffic.Keys
    && (forall e :: e in s.traffic ==> n.traffic[e] == if e in emails then ResetRow(s.traffic[e]) else s.traffic[e])
  }

  ghost predicate OverlaysReset(s: Snapshot, emails: seq<string>, n: Snapshot) {
    && n.globals.Keys == s.globals.Keys
    && (forall m, e :: m in s.globals && e in n.globals[m] ==> e in s.globals[m] && !Reaches(s, emails, e))
    && (forall m, e :: m in s.globals && e in s.globals[m] && !Reaches(s, emails, e) ==>
          e in n.globals[m] && n.globals[m][e] == s.globals[m][e])
  }

  ghost predicate ListingsReset(s: Snapshot, emails: seq<string>, n: Snapshot) {
    && |n.inbounds| == |s.inbounds|
    && (forall i :: 0 <= i < |s.inbounds| ==> n.inbounds[i].(clients := []) == s.inbounds[i].(clients := []))
    && (forall i :: 0 <= i < |s.inbounds| ==> |n.inbounds[i].clients| == |s.inbounds[i].clients|)
    && (forall i, k :: 0 <= i < |s.inbounds| && 0 <= k < |s.inbounds[i].clients| ==>
          n.inbounds[i].clients[k] == ResetListing(s, emails, s.inbounds[i].clients[k]))
  }

  /** A bulk reset zeroes and enables exactly the clients named that the node holds, whatever the order and however
      often they are named, and drops exactly their overlay rows. */
  ghost predicate ResetExactly(s: Snapshot, emails: seq<string>, n: Snapshot) {
    RowsReset(s, emails, n) && OverlaysReset(s, emails, n) && ListingsReset(s, emails, n)
  }

  lemma {:induction false} BulkResetEffect(s: Snapshot, emails: seq<string>)
    ensures ResetExactly(s, emails, ResetAll(s, emails))
  {
    if emails != [] {
      var k := |emails| - 1;
      BulkResetEffect(s, emails[..k]);
      OneMoreReset(s, emails[..k], ResetAll(s, emails[..k]), emails[k]);
      assert emails == emails[..k] + [emails[k]];
    }
  }

  predicate HasClient(ib: Inbound, email: string) { exists c :: c in ib.clients && c.email == email }

  lemma OneMoreReset(s: Snapshot, emails: seq<string>, d: Snapshot, email: string)
    requires ResetExactly(s, emails, d)
    ensures ResetExactly(s, emails + [email], if email in d.traffic then ResetClient(d, email) else d)
  {
    forall e ensures e in emails + [email] <==> e in emails || e == email {}
    OneMoreRow(s, emails, d, email);
    OneMoreOverlay(s, emails, d, email);
    OneMoreListing(s, emails, d, email);
  }

  lemma OneMoreRow(s: Snapshot, emails: seq<string>, d: Snapshot, email: string)
    requires RowsReset(s, emails, d)
    ensures RowsReset(s, emails + [email], if email in d.traffic then ResetClient(d, email) else d)
  {
    forall e ensures e in emails + [email] <==> e in emails || e == email {}
  }

  lemma OneMoreOverlay(s: Snapshot, emails: seq<string>, d: Snapshot, email: string)
    requires RowsReset(s, emails, d) && OverlaysReset(s, emails, d)
    ensures OverlaysReset(s, emails + [email], if email in d.traffic then ResetClient(d, email) else d)
  {
    forall e ensures e in emails + [email] <==> e in emails || e == email {}
    forall e ensures Reaches(s, emails + [email], e) <==> Reaches(s, emails, e) || (e == email && email in d.traffic) {}
  }

  lemma OneMoreListing(s: Snapshot, emails: seq<string>, d: Snapshot, email: string)
    requires RowsReset(s, emails, d) && ListingsReset(s, emails, d)
    ensures ListingsReset(s, emails + [email], if email in d.traffic then ResetClient(d, email) else d)
  {
    forall e ensures Reaches(s, emails + [email], e) <==> Reaches(s, emails, e) || (e == email && email in d.traffic) {}
    if email in d.traffic {
      var n := ResetClient(d, email);
      forall i | 0 <= i < |s.inbounds| ensures n.inbounds[i].(clients := []) == s.inbounds[i].(clients := []) {
        assert n.inbounds[i].(clients := []) == d.inbounds[i].(clients := []);
      }
      forall i, k | 0 <= i < |s.inbounds| && 0 <= k < |s.inbounds[i].clients|
        ensures n.inbounds[i].clients[k] == ResetListing(s, emails + [email], s.inbounds[i].clients[k])
      {
        assert d.inbounds[i].clients[k] == ResetListing(s, emails, s.inbounds[i].clients[k]);
      }
    }
  }

  /** Resetting one client is a bulk reset of it, if an inbound lists it, or the inbound named does; resetting no client
      zeroes the counters of one inbound or of all, and touches no client. */
  lemma ResetEffect(s: Snapshot, email: string, id: int, n: Snapshot)
    requires ResetResult(s, email, id) == Some(n)
    ensures email != "" && (exists i :: 0 <= i < |s.inbounds| && (id == 0 || s.inbounds[i].id == id) && HasClient(s.inbounds[i], email)) ==>
      ResetExactly(s, [email], n)
    ensures email != "" && (forall i :: 0 <= i < |s.inbounds| && (id == 0 || s.inbounds[i].id == id) ==> !HasClient(s.inbounds[i], email)) ==>
      n == s
    ensures email == "" ==> n.(inbounds := []) == s.(inbounds := []) && |n.inbounds| == |s.inbounds|
    ensures email == "" ==> forall i :: 0 <= i < |s.inbounds| ==>
      n.inbounds[i] == if id == 0 || s.inbounds[i].id == id then s.inbounds[i].(up := 0, down := 0) else s.inbounds[i]
  {
    if i :| 0 <= i < |s.inbounds| && (id == 0 || s.inbounds[i].id == id) && HasClient(s.inbounds[i], email) {
      assert Lists(s.inbounds[i], email);
    }
    if ListedUnder(s, email, id) {
      var j :| 0 <= j < |s.inbounds| && (id == 0 || id == s.inbounds[j].id) && Lists(s.inbounds[j], email);
      assert HasClient(s.inbounds[j], email);
    }
    if email != "" && ListedUnder(s, email, id) {
      BulkResetEffect(s, [email]);
      assert [email][..0] == [];
      assert ResetAll(s, [email][..0]) == s;
    }
  }

  // ---------- Overlays ----------

  /** The last row pushed for an email, if any. */
  function LastRow(rows: seq<Traffic>, email: string): Option<Traffic> {
    if rows == [] then None
    else if rows[|rows| - 1].email == email then Some(rows[|rows| - 1])
    else LastRow(rows[..|rows| - 1], email)
  }

  lemma {:induction false} PushedRow(s: Snapshot, known: map<string, Global>, rows: seq<Traffic>, now: int, e: string)
    ensures var r, last := PushRows(s, known, rows, now), LastRow(rows, e);
      if last.Some? && e in s.traffic then e in r && r[e] == Global(last.value.up, last.value.down, now)
      else (e in r <==> e in known) && (e in r ==> r[e] == known[e])
  {
    if rows != [] { PushedRow(s, known, rows[..|rows| - 1], now, e); }
  }

  /** A push sets exactly the overlay rows of that master for the clients the node holds, from the last row sent for
      each; unknown clients, other rows and other masters are left alone. */
  lemma PushEffect(s: Snapshot, master: string, rows: seq<Traffic>, now: int, n: Snapshot)
    requires PushResult(s, master, rows, now) == Some(n)
    ensures n.(globals := map[]) == s.(globals := map[]) && n.globals.Keys == s.globals.Keys + {master}
    ensures forall m :: m in s.globals && m != master ==> n.globals[m] == s.globals[m]
    ensures forall e :: var known, last := if master in s.globals then s.globals[master] else map[], LastRow(rows, e);
      if last.Some? && e in s.traffic then e in n.globals[master] && n.globals[master][e] == Global(last.value.up, last.value.down, now)
      else (e in n.globals[master] <==> e in known) && (e in known ==> n.globals[master][e] == known[e])
  {
    forall e { PushedRow(s, if master in s.globals then s.globals[master] else map[], rows, now, e); }
  }

  // ---------- What is refused ----------

  predicate NoInbound(s: Snapshot, id: int) { forall i :: 0 <= i < |s.inbounds| ==> s.inbounds[i].id != id }

  /** The reasons to refuse an edit before it is carried out. */
  predicate EditRefused(s: Snapshot, e: Edit) {
    match e
    case PutInbound(ib, id) =>
      (ib.protocol == "vless" && exists k :: 0 <= k < |ib.clients| && !ValidClient(ib.clients[k])) || (id > 0 && NoInbound(s, id))
    case DeleteInbound(_) => false
    case ChangeClient(oldEmail, c, ids, op) =>
      || (op in {Add, Update} && !ValidClient(c))
      || (op in {Add, Detach} && ids == [])
      || (exists k :: 0 <= k < |ids| && NoInbound(s, ids[k]))
      || (op.Update? && (oldEmail !in s.traffic || (c.email != oldEmail && c.email in s.traffic)))
    case ResetTraffic(email, id) => (email != "" && email !in s.traffic) || (id > 0 && NoInbound(s, id))
    case ResetClientTraffics(_) => false
    case PushGlobals(master, rows, _) =>
      || master == "" || |master| > 128
      || (master !in s.globals && |s.globals| >= 8)
      || (exists k :: 0 <= k < |rows| && (rows[k].up < 0 || rows[k].down < 0))
  }

  lemma HasMeans(ibs: seq<Inbound>, id: int)
    ensures Has(ibs, id) <==> exists i :: 0 <= i < |ibs| && ibs[i].id == id
  {
  }

  /** An edit is refused for exactly these reasons. */
  lemma EditRefusedExactly(config: Config, s: Snapshot, e: Edit)
    requires forall i :: 0 <= i < |s.inbounds| ==> s.inbounds[i].id >= 1
    ensures Edited(config, s, e).None? <==> EditRefused(s, e)
  {
    match e
    case PutInbound(ib, id) =>
      HasMeans(s.inbounds, id);
      TagOwner(s.inbounds, WithDefault(config, ib).tag);
      if c :| c in ib.clients && !ValidClient(c) {
        var k :| 0 <= k < |ib.clients| && ib.clients[k] == c;
      }
    case ChangeClient(oldEmail, c, ids, op) =>
      forall k | 0 <= k < |ids| ensures Has(s.inbounds, ids[k]) <==> !NoInbound(s, ids[k]) { HasMeans(s.inbounds, ids[k]); }
    case ResetTraffic(email, id) => HasMeans(s.inbounds, id);
    case _ =>
  }

  /** A client a node takes. */
  predicate GoodClient(c: Client) {
    && c.supported && 1 <= |c.email| <= 128 && !Contains(c.email, ">>>")
    && (c.flow == "" || c.flow == "xtls-rprx-vision") && c.total >= 0
  }

  /** An inbound a node takes: apart from what `supported` stands for, VLESS over TCP, raw or XHTTP on a port of its own
      that is not the private API's, under a name that can be told from its counters', with clients of different emails, and
      flows only where they can be served. */
  predicate GoodInbound(config: Config, ib: Inbound) {
    && ib.supported && ib.protocol == "vless" && 0 < ib.port < 65536 && ib.port != config.apiPort
    && 1 <= |ib.tag| <= 128 && !Contains(ib.tag, ">>>") && ib.tag != "api"
    && ib.total >= 0 && ib.expiry >= 0 && ib.stream.network in {Tcp, Raw, Xhttp}
    && (forall k :: 0 <= k < |ib.clients| ==> GoodClient(ib.clients[k]))
    && (forall k :: 0 <= k < |ib.clients| && ib.clients[k].flow != "" ==> ib.stream.reality || ib.stream.network == Xhttp)
    && (forall k, l :: 0 <= k < l < |ib.clients| ==> ib.clients[k].email != ib.clients[l].email)
  }

  lemma GoodInboundIsValid(config: Config, ib: Inbound)
    ensures GoodInbound(config, ib) <==> ValidInbound(ib) && ib.port != config.apiPort
  {
    if GoodInbound(config, ib) {
      forall c | c in ib.clients ensures ValidClient(c) && (!ib.stream.reality && ib.stream.network != Xhttp ==> c.flow == "") {
        var k :| 0 <= k < |ib.clients| && ib.clients[k] == c;
      }
    } else if ValidInbound(ib) {
      forall k | 0 <= k < |ib.clients| ensures ib.clients[k] in ib.clients {}
    }
  }

  predicate ApartInbounds(a: Inbound, b: Inbound) { a.port != b.port && a.tag != b.tag }

  /** At most 8 inbounds, all good, with different ports and tags. */
  predicate GoodInbounds(config: Config, d: Snapshot) {
    && |d.inbounds| <= 8
    && (forall i :: 0 <= i < |d.inbounds| ==> GoodInbound(config, d.inbounds[i]))
    && (forall i, k :: 0 <= i < k < |d.inbounds| ==> ApartInbounds(d.inbounds[i], d.inbounds[k]))
  }

  lemma CheckedMeans(config: Config, d: Snapshot)
    ensures Checked(config, d) <==> GoodInbounds(config, d)
  {
    forall i | 0 <= i < |d.inbounds|
      ensures GoodInbound(config, d.inbounds[i]) <==> ValidInbound(d.inbounds[i]) && d.inbounds[i].port != config.apiPort
    {
      GoodInboundIsValid(config, d.inbounds[i]);
    }
    if forall i, k :: 0 <= i < k < |d.inbounds| ==> ApartInbounds(d.inbounds[i], d.inbounds[k]) {
      forall i, k | 0 <= i < k < |d.inbounds| ensures d.inbounds[i].port != d.inbounds[k].port && d.inbounds[i].tag != d.inbounds[k].tag {
        assert ApartInbounds(d.inbounds[i], d.inbounds[k]);
      }
    }
  }
}
