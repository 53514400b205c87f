/** The node's stored records, what makes them acceptable, and the engine table they ask for. */
module NodeTypes {
  import opened Options
  import opened Text
  import StatKeys

  const MAX_INBOUNDS := 8
  const MAX_CLIENTS := 64
  const MAX_MASTERS := 8
  const DAY_MS := 24 * 60 * 60 * 1000

  /** `supported` stands for the per-field allowlist, the UUID syntax and the field types. */
  datatype Client = Client(id: string, email: string, enable: bool, flow: string, total: int, expiry: int, supported: bool)

  datatype Network = Tcp | Raw | Xhttp | OtherNetwork

  datatype Stream = Stream(network: Network, reality: bool, rest: string)

  /** `supported` stands for the listen address and the settings, stream and sniffing allowlists. */
  datatype Inbound = Inbound(
    id: int, up: int, down: int, total: int, enable: bool, expiry: int, listen: string, port: int,
    protocol: string, stream: Stream, tag: string, disableFlow: bool, clients: seq<Client>, supported: bool)

  datatype Traffic = Traffic(
    id: int, inboundId: int, email: string, uuid: string, enable: bool,
    up: int, down: int, total: int, expiry: int, lastOnline: int)

  datatype Global = Global(up: int, down: int, updatedAt: int)

  /** One whole stored state. */
  datatype Snapshot = Snapshot(
    running: bool, checkpointAt: int, schema: int, guid: string, nextId: int, nextClientId: int,
    inbounds: seq<Inbound>, traffic: map<string, Traffic>, globals: map<string, map<string, Global>>)

  datatype Account = Account(id: string, flow: string)

  datatype Live = Live(tag: string, listen: string, port: int, stream: Stream, users: map<string, Account>)

  // ---------- Validation ----------

  predicate ValidClient(c: Client) {
    && c.supported
    && 0 < |c.email| <= 128 && !Contains(c.email, StatKeys.SEP)
    && c.flow in {"", "xtls-rprx-vision"}
    && c.total >= 0
  }

  predicate UniqueEmails(cs: seq<Client>) {
    forall i, j :: 0 <= i < j < |cs| ==> cs[i].email != cs[j].email
  }

  predicate ValidInbound(ib: Inbound) {
    && ib.protocol == "vless" && 1 <= ib.port <= 65535
    && ib.supported
    && 0 < |ib.tag| <= 128 && !Contains(ib.tag, StatKeys.SEP) && ib.tag != "api"
    && ib.total >= 0 && ib.expiry >= 0
    && ib.stream.network != OtherNetwork
    && (forall c :: c in ib.clients ==> ValidClient(c))
    && (forall c :: c in ib.clients && !ib.stream.reality && ib.stream.network != Xhttp ==> c.flow == "")
    && UniqueEmails(ib.clients)
  }

  // ---------- Quotas ----------

  predicate OverQuota(up: int, down: int, total: int) { total > 0 && up >= total - down }

  predicate Lapsed(expiry: int, now: int) { 0 < expiry <= now }

  /** A master's overlay row that is fresh enough to count. */
  predicate OverGlobally(rows: map<string, Global>, t: Traffic, now: int) {
    var g := if t.email in rows then rows[t.email] else Global(0, 0, 0);
    g.updatedAt >= now - DAY_MS && g.up >= t.total - g.down
  }

  predicate Exhausted(globals: map<string, map<string, Global>>, t: Traffic, now: int) {
    || Lapsed(t.expiry, now)
    || OverQuota(t.up, t.down, t.total)
    || (t.total > 0 && exists m :: m in globals && OverGlobally(globals[m], t, now))
  }

  predicate Closed(ib: Inbound, now: int) { OverQuota(ib.up, ib.down, ib.total) || Lapsed(ib.expiry, now) }

  /** A 64-bit two's-complement result. */
  function Wrap64(x: int): int { (x + 0x8000_0000_0000_0000) % 0x1_0000_0000_0000_0000 - 0x8000_0000_0000_0000 }

  /** The machine comparison up >= total - down never overflows on non-negative counters, and means up + down >= total,
      although the machine sum up + down itself can overflow. */
  lemma QuotaTestIsExact(up: int, down: int, total: int)
    requires 0 <= up < 0x8000_0000_0000_0000 && 0 <= down < 0x8000_0000_0000_0000 && 0 < total < 0x8000_0000_0000_0000
    ensures up >= Wrap64(total - down) <==> up + down >= total
    ensures OverQuota(up, down, total) <==> up + down >= total
    ensures up + down >= 0x8000_0000_0000_0000 ==> Wrap64(up + down) < total
  {
  }

  predicate RowWithin(g: Global, total: int, now: int) { now - g.updatedAt <= 86_400_000 ==> g.up + g.down < total }

  /** What entitles a client: bytes below its total if it has one, no expiry or one to come, and no master's row for
      it, updated within 24 hours, that reaches the total. */
  predicate WithinLimits(globals: map<string, map<string, Global>>, t: Traffic, now: int) {
    && (t.total > 0 ==> t.up + t.down < t.total)
    && (t.expiry <= 0 || now < t.expiry)
    && (t.total > 0 ==> forall m :: m in globals && t.email in globals[m] ==> RowWithin(globals[m][t.email], t.total, now))
  }

  /** What keeps an inbound open: bytes below its total if it has one, and no expiry or one to come. */
  predicate WithinOwnLimits(ib: Inbound, now: int) {
    (ib.total > 0 ==> ib.up + ib.down < ib.total) && (ib.expiry <= 0 || now < ib.expiry)
  }

  lemma LimitsAreExact(globals: map<string, map<string, Global>>, t: Traffic, now: int)
    ensures Exhausted(globals, t, now) <==> !WithinLimits(globals, t, now)
  {
    if t.total > 0 {
      if m :| m in globals && OverGlobally(globals[m], t, now) { assert t.email in globals[m]; }
      if m :| m in globals && t.email in globals[m] && !RowWithin(globals[m][t.email], t.total, now) {
        assert OverGlobally(globals[m], t, now);
      }
    }
  }

  // ---------- The engine table a state asks for ----------

  function FlowOf(ib: Inbound, c: Client): string {
    if ib.disableFlow || ib.stream.network == Xhttp then "" else c.flow
  }

  predicate Served(s: Snapshot, c: Client, now: int) {
    c.email in s.traffic && c.enable && !Exhausted(s.globals, s.traffic[c.email], now)
  }

  /** The accounts of the first n clients; a later client with the same email wins. */
  function Users(s: Snapshot, ib: Inbound, n: nat, now: int): map<string, Account>
    requires n <= |ib.clients|
  {
    if n == 0 then map[]
    else
      var c, rest := ib.clients[n - 1], Users(s, ib, n - 1, now);
      if Served(s, c, now) then rest[c.email := Account(c.id, FlowOf(ib, c))] else rest
  }

  function LiveOf(s: Snapshot, ib: Inbound, now: int): Live {
    Live(ib.tag, ib.listen, ib.port, ib.stream, Users(s, ib, |ib.clients|, now))
  }

  function Table(s: Snapshot, n: nat, now: int): seq<Live>
    requires n <= |s.inbounds|
  {
    if n == 0 then []
    else
      var ib, rest := s.inbounds[n - 1], Table(s, n - 1, now);
      if !ib.enable || Closed(ib, now) then rest else rest + [LiveOf(s, ib, now)]
  }

  /** The table the node wants the engine to run for state s at time now. */
  function Desired(s: Snapshot, now: int): seq<Live> { Table(s, |s.inbounds|, now) }

  ghost predicate UniqueTags(t: seq<Live>) {
    forall i, j :: 0 <= i < j < |t| ==> t[i].tag != t[j].tag
  }

  predicate DistinctTags(ibs: seq<Inbound>) {
    forall i, j :: 0 <= i < j < |ibs| ==> ibs[i].tag != ibs[j].tag
  }

  /** Users of a live inbound are exactly the enabled, unexhausted clients, with their own account. */
  lemma {:induction false} UsersAre(s: Snapshot, ib: Inbound, n: nat, now: int, email: string)
    requires n <= |ib.clients| && UniqueEmails(ib.clients)
    ensures email in Users(s, ib, n, now) <==> exists i :: 0 <= i < n && ib.clients[i].email == email && Served(s, ib.clients[i], now)
    ensures forall i :: 0 <= i < n && ib.clients[i].email == email && Served(s, ib.clients[i], now) ==>
      Users(s, ib, n, now)[email] == Account(ib.clients[i].id, FlowOf(ib, ib.clients[i]))
  {
    if n > 0 { UsersAre(s, ib, n - 1, now, email); }
  }

  /** Live inbound l is the open inbound j of s. */
  predicate Backs(s: Snapshot, j: int, now: int, l: Live) {
    0 <= j < |s.inbounds| && s.inbounds[j].enable && !Closed(s.inbounds[j], now) && l == LiveOf(s, s.inbounds[j], now)
  }

  predicate Backed(s: Snapshot, n: nat, now: int, l: Live) {
    exists j :: 0 <= j < n && Backs(s, j, now, l)
  }

  lemma {:induction false} TableTags(s: Snapshot, n: nat, now: int)
    requires n <= |s.inbounds| && DistinctTags(s.inbounds)
    ensures UniqueTags(Table(s, n, now))
    ensures forall i :: 0 <= i < |Table(s, n, now)| ==> Backed(s, n, now, Table(s, n, now)[i])
  {
    if n > 0 {
      TableTags(s, n - 1, now);
      var rest, t := Table(s, n - 1, now), Table(s, n, now);
      forall i | 0 <= i < |t|
        ensures Backed(s, n, now, t[i])
      {
        if i < |rest| {
          assert Backed(s, n - 1, now, rest[i]);
        } else {
          assert Backs(s, n - 1, now, t[i]);
        }
      }
    }
  }

  /** Live inbound l serves client k of inbound j: the inbound is enabled and within its limits, the client enabled and
      within its own, and it gets its id and its flow, but no flow over XHTTP or where the inbound disables it. */
  predicate ServesAs(s: Snapshot, now: int, j: int, k: int, l: Live) {
    && 0 <= j < |s.inbounds| && 0 <= k < |s.inbounds[j].clients|
    && var ib, c := s.inbounds[j], s.inbounds[j].clients[k];
    && ib.enable && WithinOwnLimits(ib, now)
    && c.enable && c.email in s.traffic && WithinLimits(s.globals, s.traffic[c.email], now)
    && l.tag == ib.tag && l.listen == ib.listen && l.port == ib.port && l.stream == ib.stream
    && c.email in l.users
    && l.users[c.email] == Account(c.id, if ib.disableFlow || ib.stream.network == Xhttp then "" else c.flow)
  }

  /** No table the node asks for serves anyone else: every user of it is such a client. */
  lemma DesiredServesOnlyTheEntitled(s: Snapshot, now: int, i: nat, email: string)
    requires DistinctTags(s.inbounds) && (forall ib :: ib in s.inbounds ==> UniqueEmails(ib.clients))
    requires i < |Desired(s, now)| && email in Desired(s, now)[i].users
    ensures exists j, k :: ServesAs(s, now, j, k, Desired(s, now)[i]) && s.inbounds[j].clients[k].email == email
  {
    TableTags(s, |s.inbounds|, now);
    assert Backed(s, |s.inbounds|, now, Desired(s, now)[i]);
    var j :| 0 <= j < |s.inbounds| && Backs(s, j, now, Desired(s, now)[i]);
    var ib := s.inbounds[j];
    UsersAre(s, ib, |ib.clients|, now, email);
    var k :| 0 <= k < |ib.clients| && ib.clients[k].email == email && Served(s, ib.clients[k], now);
    LimitsAreExact(s.globals, s.traffic[email], now);
    assert ServesAs(s, now, j, k, Desired(s, now)[i]);
  }

  lemma {:induction false} OpenIsListed(s: Snapshot, n: nat, now: int, j: nat)
    requires j < n <= |s.inbounds| && s.inbounds[j].enable && !Closed(s.inbounds[j], now)
    ensures exists i :: 0 <= i < |Table(s, n, now)| && Table(s, n, now)[i] == LiveOf(s, s.inbounds[j], now)
  {
    if j < n - 1 {
      OpenIsListed(s, n - 1, now, j);
      var i :| 0 <= i < |Table(s, n - 1, now)| && Table(s, n - 1, now)[i] == LiveOf(s, s.inbounds[j], now);
      assert Table(s, n, now)[i] == LiveOf(s, s.inbounds[j], now);
    } else {
      var t := Table(s, n, now);
      assert t[|t| - 1] == LiveOf(s, s.inbounds[j], now);
    }
  }

  /** Every such client is served: on each inbound that is enabled and within its limits and lists it. */
  lemma DesiredServesTheEntitled(s: Snapshot, now: int, j: nat, k: nat)
    requires j < |s.inbounds| && UniqueEmails(s.inbounds[j].clients) && s.inbounds[j].enable && WithinOwnLimits(s.inbounds[j], now)
    requires k < |s.inbounds[j].clients| && var c := s.inbounds[j].clients[k];
      c.enable && c.email in s.traffic && WithinLimits(s.globals, s.traffic[c.email], now)
    ensures exists i :: 0 <= i < |Desired(s, now)| && ServesAs(s, now, j, k, Desired(s, now)[i])
  {
    var ib := s.inbounds[j];
    LimitsAreExact(s.globals, s.traffic[ib.clients[k].email], now);
    OpenIsListed(s, |s.inbounds|, now, j);
    UsersAre(s, ib, |ib.clients|, now, ib.clients[k].email);
    var i :| 0 <= i < |Desired(s, now)| && Desired(s, now)[i] == LiveOf(s, ib, now);
    assert ServesAs(s, now, j, k, Desired(s, now)[i]);
  }

  /** Live inbound l carries inbound j, which is enabled and within its limits. */
  predicate Carries(s: Snapshot, now: int, j: int, l: Live) {
    && 0 <= j < |s.inbounds| && s.inbounds[j].enable && WithinOwnLimits(s.inbounds[j], now)
    && l.tag == s.inbounds[j].tag && l.listen == s.inbounds[j].listen
    && l.port == s.inbounds[j].port && l.stream == s.inbounds[j].stream
  }

  ghost predicate CarriesOpen(s: Snapshot, now: int, l: Live) { exists j :: Carries(s, now, j, l) }

  lemma OpenIsCarried(s: Snapshot, now: int, j: nat)
    requires j < |s.inbounds| && s.inbounds[j].enable && WithinOwnLimits(s.inbounds[j], now)
    ensures exists i :: 0 <= i < |Desired(s, now)| && Carries(s, now, j, Desired(s, now)[i])
  {
    OpenIsListed(s, |s.inbounds|, now, j);
    var i :| 0 <= i < |Desired(s, now)| && Desired(s, now)[i] == LiveOf(s, s.inbounds[j], now);
    assert Carries(s, now, j, Desired(s, now)[i]);
  }

  lemma CarriedIsOpen(s: Snapshot, now: int, i: nat)
    requires DistinctTags(s.inbounds) && i < |Desired(s, now)|
    ensures CarriesOpen(s, now, Desired(s, now)[i])
  {
    TableTags(s, |s.inbounds|, now);
    assert Backed(s, |s.inbounds|, now, Desired(s, now)[i]);
    var j :| 0 <= j < |s.inbounds| && Backs(s, j, now, Desired(s, now)[i]);
    assert Carries(s, now, j, Desired(s, now)[i]);
  }

  ghost predicate IsCarried(s: Snapshot, now: int, j: int) {
    exists i :: 0 <= i < |Desired(s, now)| && Carries(s, now, j, Desired(s, now)[i])
  }

  /** The table has an entry for each inbound that is enabled and within its limits, whether or not it serves anyone,
      and for no other. */
  lemma DesiredCarriesTheOpen(s: Snapshot, now: int)
    requires DistinctTags(s.inbounds)
    ensures forall j :: 0 <= j < |s.inbounds| && s.inbounds[j].enable && WithinOwnLimits(s.inbounds[j], now) ==> IsCarried(s, now, j)
    ensures forall i :: 0 <= i < |Desired(s, now)| ==> CarriesOpen(s, now, Desired(s, now)[i])
  {
    forall j | 0 <= j < |s.inbounds| && s.inbounds[j].enable && WithinOwnLimits(s.inbounds[j], now) ensures IsCarried(s, now, j) {
      OpenIsCarried(s, now, j);
    }
    forall i | 0 <= i < |Desired(s, now)| ensures CarriesOpen(s, now, Desired(s, now)[i]) { CarriedIsOpen(s, now, i); }
  }
}
