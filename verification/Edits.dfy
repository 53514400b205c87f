/** The master's edits of a node's state, the checks of a commit, and the invariant every commit keeps. */
module Edits {
  import opened Options
  import opened NodeTypes
  import opened Sync

  datatype Config = Config(apiPort: int, defaultClient: Option<Client>)

  datatype ClientOp = Add | Update | Delete | Detach

  datatype Edit =
    | PutInbound(ib: Inbound, id: int)
    | DeleteInbound(id: int)
    | ChangeClient(oldEmail: string, client: Client, ids: seq<int>, op: ClientOp)
    | ResetTraffic(email: string, id: int)
    | ResetClientTraffics(emails: seq<string>)
    | PushGlobals(master: string, rows: seq<Traffic>, now: int)

  // ---------- Helpers shared with the sampler ----------

  datatype Field = Enable(enable: bool) | Expiry(expiry: int)

  function SetField(c: Client, f: Field): Client {
    match f
    case Enable(v) => c.(enable := v)
    case Expiry(v) => c.(expiry := v)
  }

  function SetInClients(cs: seq<Client>, email: string, f: Field): seq<Client> {
    seq(|cs|, i requires 0 <= i < |cs| => if cs[i].email == email then SetField(cs[i], f) else cs[i])
  }

  /** Every listing of the email, in every inbound, gets the field. */
  function SetClientField(ibs: seq<Inbound>, email: string, f: Field): seq<Inbound> {
    seq(|ibs|, i requires 0 <= i < |ibs| => ibs[i].(clients := SetInClients(ibs[i].clients, email, f)))
  }

  predicate Lists(ib: Inbound, email: string) { exists i :: 0 <= i < |ib.clients| && ib.clients[i].email == email }

  /** Position of the first inbound with this id, or |ibs|. */
  function Position(ibs: seq<Inbound>, id: int): (j: nat)
    ensures j <= |ibs| && (j < |ibs| ==> ibs[j].id == id)
    ensures forall i :: 0 <= i < j ==> ibs[i].id != id
  {
    if ibs == [] then 0
    else if ibs[0].id == id then 0
    else 1 + Position(ibs[1..], id)
  }

  predicate Has(ibs: seq<Inbound>, id: int) { Position(ibs, id) < |ibs| }

  /** Id of the first inbound with this tag, or 0. */
  function IdOfTag(ibs: seq<Inbound>, tag: string): int {
    if ibs == [] then 0 else if ibs[0].tag == tag then ibs[0].id else IdOfTag(ibs[1..], tag)
  }

  // ---------- The edits ----------

  function WithDefault(config: Config, ib: Inbound): Inbound {
    if ib.protocol == "vless" && config.defaultClient.Some? && |ib.clients| == 0
    then ib.(clients := [config.defaultClient.value]) else ib
  }

  function PutResult(config: Config, s: Snapshot, sent: Inbound, id: int): Option<Snapshot> {
    if sent.protocol == "vless" && exists c :: c in sent.clients && !ValidClient(c) then None
    else
      var ib := WithDefault(config, sent);
      var target := if id == 0 then IdOfTag(s.inbounds, ib.tag) else id;
      if target > 0 then
        var j := Position(s.inbounds, target);
        if j == |s.inbounds| then None
        else Some(s.(inbounds := s.inbounds[j := ib.(id := target, up := s.inbounds[j].up, down := s.inbounds[j].down)]))
      else
        Some(s.(inbounds := s.inbounds + [ib.(id := s.nextId, up := 0, down := 0)], nextId := s.nextId + 1))
  }

  function DeleteResult(s: Snapshot, id: int): Snapshot {
    var j := Position(s.inbounds, id);
    if j == |s.inbounds| then s else s.(inbounds := s.inbounds[..j] + s.inbounds[j + 1..])
  }

  predicate Matches(prev: Client, oldEmail: string, c: Client, op: ClientOp) {
    prev.email == oldEmail || (op.Add? && prev.email == c.email)
  }

  /** What becomes of one listed client. */
  function Keep(prev: Client, oldEmail: string, c: Client, op: ClientOp, selected: bool): seq<Client> {
    if !Matches(prev, oldEmail, c, op) then [prev]
    else match op
      case Delete => []
      case Detach => if selected then [] else [prev]
      case Update => [c]
      case Add => if selected then [c] else [prev]
  }

  function KeepAll(cs: seq<Client>, oldEmail: string, c: Client, op: ClientOp, selected: bool): seq<Client> {
    if cs == [] then [] else KeepAll(cs[..|cs| - 1], oldEmail, c, op, selected) + Keep(cs[|cs| - 1], oldEmail, c, op, selected)
  }

  predicate Found(cs: seq<Client>, oldEmail: string, c: Client, op: ClientOp) {
    exists i :: 0 <= i < |cs| && Matches(cs[i], oldEmail, c, op)
  }

  predicate Selected(ib: Inbound, ids: seq<int>) { ids == [] || ib.id in ids }

  function ChangedInbound(ib: Inbound, oldEmail: string, c: Client, ids: seq<int>, op: ClientOp): Inbound {
    var sel := Selected(ib, ids);
    ib.(clients := KeepAll(ib.clients, oldEmail, c, op, sel)
      + if op.Add? && sel && !Found(ib.clients, oldEmail, c, op) then [c] else [])
  }

  function Renamed(s: Snapshot, oldEmail: string, email: string): Snapshot
    requires oldEmail in s.traffic
  {
    s.(traffic := (s.traffic - {oldEmail})[email := s.traffic[oldEmail].(email := email)],
       globals := Cleared(s.globals, {oldEmail}))
  }

  predicate ChangeRefused(s: Snapshot, oldEmail: string, c: Client, ids: seq<int>, op: ClientOp) {
    || ((op.Add? || op.Update?) && !ValidClient(c))
    || ((op.Add? || op.Detach?) && ids == [])
    || (exists i :: 0 <= i < |ids| && !Has(s.inbounds, ids[i]))
    || (op.Update? && oldEmail !in s.traffic)
    || (op.Update? && c.email != oldEmail && c.email in s.traffic)
  }

  function ChangeResult(s: Snapshot, oldEmail: string, c: Client, ids: seq<int>, op: ClientOp): Option<Snapshot> {
    if ChangeRefused(s, oldEmail, c, ids, op) then None
    else
      var n := if op.Update? && c.email != oldEmail then Renamed(s, oldEmail, c.email) else s;
      Some(n.(inbounds := seq(|s.inbounds|, i requires 0 <= i < |s.inbounds| => ChangedInbound(s.inbounds[i], oldEmail, c, ids, op))))
  }

  function ResetClient(s: Snapshot, email: string): Snapshot
    requires email in s.traffic
  {
    s.(traffic := s.traffic[email := s.traffic[email].(up := 0, down := 0, enable := true)],
       globals := Cleared(s.globals, {email}),
       inbounds := SetClientField(s.inbounds, email, Enable(true)))
  }

  function ZeroInbound(ib: Inbound, id: int): Inbound {
    if id == 0 || ib.id == id then ib.(up := 0, down := 0) else ib
  }

  predicate ListedUnder(s: Snapshot, email: string, id: int) {
    exists j :: 0 <= j < |s.inbounds| && (id == 0 || id == s.inbounds[j].id) && Lists(s.inbounds[j], email)
  }

  function ResetResult(s: Snapshot, email: string, id: int): Option<Snapshot> {
    if (email != "" && email !in s.traffic) || (id > 0 && !Has(s.inbounds, id)) then None
    else if email == "" then
      Some(s.(inbounds := seq(|s.inbounds|, i requires 0 <= i < |s.inbounds| => ZeroInbound(s.inbounds[i], id))))
    else if ListedUnder(s, email, id) then Some(ResetClient(s, email))
    else Some(s)
  }

  function ResetAll(s: Snapshot, emails: seq<string>): Snapshot {
    if emails == [] then s
    else
      var rest := ResetAll(s, emails[..|emails| - 1]);
      var email := emails[|emails| - 1];
      if email in rest.traffic then ResetClient(rest, email) else rest
  }

  function PushRows(s: Snapshot, known: map<string, Global>, rows: seq<Traffic>, now: int): map<string, Global> {
    if rows == [] then known
    else
      var rest, t := PushRows(s, known, rows[..|rows| - 1], now), rows[|rows| - 1];
      if t.email in s.traffic then rest[t.email := Global(t.up, t.down, now)] else rest
  }

  predicate PushRefused(s: Snapshot, master: string, rows: seq<Traffic>) {
    || master == "" || |master| > 128
    || (|s.globals| >= MAX_MASTERS && master !in s.globals)
    || exists i :: 0 <= i < |rows| && (rows[i].up < 0 || rows[i].down < 0)
  }

  function PushResult(s: Snapshot, master: string, rows: seq<Traffic>, now: int): Option<Snapshot> {
    if PushRefused(s, master, rows) then None
    else Some(s.(globals := s.globals[master := PushRows(s, if master in s.globals then s.globals[master] else map[], rows, now)]))
  }

  /** The edited state before it is checked; None when the edit itself refuses. */
  function Edited(config: Config, s: Snapshot, e: Edit): Option<Snapshot> {
    match e
    case PutInbound(ib, id) => PutResult(config, s, ib, id)
    case DeleteInbound(id) => Some(DeleteResult(s, id))
    case ChangeClient(oldEmail, c, ids, op) => ChangeResult(s, oldEmail, c, ids, op)
    case ResetTraffic(email, id) => ResetResult(s, email, id)
    case ResetClientTraffics(emails) => Some(ResetAll(s, emails))
    case PushGlobals(master, rows, now) => PushResult(s, master, rows, now)
  }

  predicate DistinctPorts(ibs: seq<Inbound>) { forall i, j :: 0 <= i < j < |ibs| ==> ibs[i].port != ibs[j].port }

  predicate DistinctIds(ibs: seq<Inbound>) { forall i, j :: 0 <= i < j < |ibs| ==> ibs[i].id != ibs[j].id }

  predicate Checked(config: Config, s: Snapshot) {
    && |s.inbounds| <= MAX_INBOUNDS
    && (forall i :: 0 <= i < |s.inbounds| ==> ValidInbound(s.inbounds[i]) && s.inbounds[i].port != config.apiPort)
    && DistinctPorts(s.inbounds) && DistinctTags(s.inbounds)
  }

  /** The state an edit commits; None when it is refused. */
  function Committed(config: Config, s: Snapshot, e: Edit): Option<Snapshot> {
    match Edited(config, s, e)
    case None => None
    case Some(n) => if Checked(config, n) then Synced(n) else None
  }

  // ---------- The invariant ----------

  /** What holds of an edited state even before its rows are brought in line. */
  ghost predicate Draft(s: Snapshot) {
    && s.schema == 1 && s.guid != "" && s.nextId >= 1 && s.nextClientId >= 1
    && DistinctIds(s.inbounds)
    && (forall i :: 0 <= i < |s.inbounds| ==> 1 <= s.inbounds[i].id < s.nextId && s.inbounds[i].up >= 0 && s.inbounds[i].down >= 0)
    && RowsOk(s.traffic, s.nextClientId)
    && |s.globals.Keys| <= MAX_MASTERS
    && (forall m :: m in s.globals ==> s.globals[m].Keys <= s.traffic.Keys)
    && (forall m, e :: m in s.globals && e in s.globals[m] ==> s.globals[m][e].up >= 0 && s.globals[m][e].down >= 0)
  }

  ghost predicate Structured(s: Snapshot) {
    && |s.inbounds| <= MAX_INBOUNDS
    && (forall i :: 0 <= i < |s.inbounds| ==> ValidInbound(s.inbounds[i]))
    && DistinctPorts(s.inbounds) && DistinctTags(s.inbounds)
  }

  /** Rows are exactly the listed clients, and mirror each of their listings. */
  ghost predicate InLine(s: Snapshot) {
    && |s.traffic.Keys| <= MAX_CLIENTS
    && (forall e :: e in s.traffic ==> exists i :: 0 <= i < |s.inbounds| && Lists(s.inbounds[i], e))
    && (forall i, k :: 0 <= i < |s.inbounds| && 0 <= k < |s.inbounds[i].clients| ==>
         var c := s.inbounds[i].clients[k]; c.email in s.traffic && Mirrors(s.traffic[c.email], c))
  }

  ghost predicate StateOk(s: Snapshot) { Draft(s) && Structured(s) && InLine(s) }
}
