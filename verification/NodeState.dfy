/** The node's state as the program holds it: a record whose lists and maps are changed in place. */
module NodeState {
  import opened Options
  import opened NodeTypes
  import opened StatKeys
  import opened Engine
  import opened Sync
  import opened Edits
  import opened Sampling
  import opened SampleSteps

  /** One listing pass over the clients of an inbound. */
  method SetListed(cs: seq<Client>, email: string, f: Field) returns (r: seq<Client>)
    ensures r == SetInClients(cs, email, f)
  {
    r := cs;
    for i := 0 to |cs|
      invariant |r| == |cs|
      invariant forall k :: 0 <= k < |cs| ==> r[k] == if k < i && cs[k].email == email then SetField(cs[k], f) else cs[k]
    {
      if cs[i].email == email { r := r[i := SetField(cs[i], f)]; }
    }
  }

  /** One inbound's client list after a client change. */
  method ChangeListed(cs: seq<Client>, oldEmail: string, c: Client, op: ClientOp, selected: bool) returns (r: seq<Client>)
    ensures r == KeepAll(cs, oldEmail, c, op, selected) + if op.Add? && selected && !Found(cs, oldEmail, c, op) then [c] else []
  {
    r := [];
    var found := false;
    for i := 0 to |cs|
      invariant r == KeepAll(cs[..i], oldEmail, c, op, selected)
      invariant found == exists k :: 0 <= k < i && Matches(cs[k], oldEmail, c, op)
    {
      var prev := cs[i];
      assert cs[..i + 1][..i] == cs[..i];
      var keep := true;
      if Matches(prev, oldEmail, c, op) {
        found := true;
        match op {
          case Delete => keep := false;
          case Detach => keep := !selected;
          case Update => prev := c;
          case Add => if selected { prev := c; }
        }
      }
      if keep { r := r + [prev]; }
    }
    assert cs[..|cs|] == cs;
    if op.Add? && selected && !found { r := r + [c]; }
  }

  lemma ClearedNone(globals: map<string, map<string, Global>>)
    ensures Cleared(globals, {}) == globals
  {
    forall m | m in globals ensures globals[m] - {} == globals[m] {}
  }

  lemma ClearedMore(globals: map<string, map<string, Global>>, gone: set<string>, email: string)
    ensures Cleared(Cleared(globals, gone), {email}) == Cleared(globals, gone + {email})
  {
    forall m | m in globals ensures (globals[m] - gone) - {email} == globals[m] - (gone + {email}) {}
  }

  /** The rows of one master that are fresh enough to keep. */
  method DropStale(rows: map<string, Global>, now: int) returns (kept: map<string, Global>)
    ensures kept == FreshRows(rows, now)
  {
    kept := rows;
    var todo := rows.Keys;
    while todo != {}
      invariant todo <= rows.Keys
      invariant kept == map e | e in rows && (e in todo || rows[e].updatedAt >= now - DAY_MS) :: rows[e]
      decreases todo
    {
      var e :| e in todo;
      if kept[e].updatedAt < now - DAY_MS { kept := kept - {e}; }
      todo := todo - {e};
    }
  }

  predicate Admissible(config: Config, ib: Inbound) { ValidInbound(ib) && ib.port != config.apiPort }

  class State {
    var running: bool
    var checkpointAt: int
    var schema: int
    var guid: string
    var nextId: int
    var nextClientId: int
    var inbounds: seq<Inbound>
    var traffic: map<string, Traffic>
    var globals: map<string, map<string, Global>>

    function Value(): Snapshot
      reads this
    {
      Snapshot(running, checkpointAt, schema, guid, nextId, nextClientId, inbounds, traffic, globals)
    }

    /** Also how a state is cloned: decoded from the encoding of another. */
    constructor (s: Snapshot)
      ensures Value() == s
    {
      running, checkpointAt, schema, guid := s.running, s.checkpointAt, s.schema, s.guid;
      nextId, nextClientId := s.nextId, s.nextClientId;
      inbounds, traffic, globals := s.inbounds, s.traffic, s.globals;
    }

    method Find(id: int) returns (j: nat)
      ensures j == Position(inbounds, id)
    {
      j := 0;
      while j < |inbounds| && inbounds[j].id != id
        invariant j <= |inbounds| && Position(inbounds, id) == j + Position(inbounds[j..], id)
      {
        j := j + 1;
      }
    }

    method ClearGlobals(email: string)
      modifies this`globals
      ensures globals == Cleared(old(globals), {email})
    {
      var todo := globals.Keys;
      while todo != {}
        invariant globals.Keys == old(globals).Keys && todo <= globals.Keys
        invariant forall m :: m in globals ==> globals[m] == if m in todo then old(globals)[m] else old(globals)[m] - {email}
        decreases todo
      {
        var m :| m in todo;
        globals := globals[m := globals[m] - {email}];
        todo := todo - {m};
      }
    }

    method SetClient(email: string, f: Field)
      modifies this`inbounds
      ensures inbounds == SetClientField(old(inbounds), email, f)
    {
      for j := 0 to |inbounds|
        invariant |inbounds| == |old(inbounds)|
        invariant forall i :: 0 <= i < j ==> inbounds[i] == old(inbounds)[i].(clients := SetInClients(old(inbounds)[i].clients, email, f))
        invariant forall i :: j <= i < |inbounds| ==> inbounds[i] == old(inbounds)[i]
      {
        var cs := SetListed(inbounds[j].clients, email, f);
        inbounds := inbounds[j := inbounds[j].(clients := cs)];
      }
    }

    // ---------- Bringing the rows in line ----------

    /** One row, created or updated from one listing. */
    method SyncRow(inbound: int, c: Client)
      modifies this`traffic, this`nextClientId
      ensures forall seen ::
        (Step(Progress(seen, old(traffic), old(nextClientId)), Listing(inbound, c)) == Progress(seen[c.email := c], traffic, nextClientId))
    {
      if c.email !in traffic {
        traffic := traffic[c.email := NewRow(nextClientId, c.email)];
        nextClientId := nextClientId + 1;
      }
      traffic := traffic[c.email := Mirror(traffic[c.email], Listing(inbound, c))];
    }

    /** All rows from all listings; fails on the first listing that disagrees with an earlier one. */
    method SyncRows() returns (ok: bool, seen: map<string, Client>)
      modifies this`traffic, this`nextClientId
      ensures Fold(Progress(map[], old(traffic), old(nextClientId)), Listings(inbounds)) ==
        if ok then Some(Progress(seen, traffic, nextClientId)) else None
    {
      ghost var all := Fold(Progress(map[], traffic, nextClientId), Listings(inbounds));
      seen := map[];
      for j := 0 to |inbounds|
        invariant all == Fold(Progress(seen, traffic, nextClientId), Listings(inbounds[j..]))
      {
        var ib := inbounds[j];
        assert inbounds[j..][0] == ib && inbounds[j..][1..] == inbounds[j + 1..];
        ghost var ls, later := ListingsOf(ib), Listings(inbounds[j + 1..]);
        assert ls[0..] == ls;
        for i := 0 to |ib.clients|
          invariant all == Fold(Progress(seen, traffic, nextClientId), ls[i..] + later)
        {
          var c := ib.clients[i];
          assert (ls[i..] + later)[0] == Listing(ib.id, c) && (ls[i..] + later)[1..] == ls[i + 1..] + later;
          if c.email in seen && !Agree(seen[c.email], c) { return false, seen; }
          SyncRow(ib.id, c);
          seen := seen[c.email := c];
        }
        assert ls[|ib.clients|..] + later == later;
      }
      assert inbounds[|inbounds|..] == [];
      ok := true;
    }

    method DropUnseen(seen: map<string, Client>)
      modifies this`traffic, this`globals
      ensures traffic == old(traffic) - (old(traffic).Keys - seen.Keys)
      ensures globals == Cleared(old(globals), old(traffic).Keys - seen.Keys)
    {
      var todo := traffic.Keys;
      ghost var gone: set<string> := {};
      ClearedNone(globals);
      while todo != {}
        invariant todo <= old(traffic).Keys && gone == old(traffic).Keys - todo - seen.Keys
        invariant traffic == old(traffic) - gone && globals == Cleared(old(globals), gone)
        decreases todo
      {
        var email :| email in todo;
        todo := todo - {email};
        if email !in seen {
          traffic := traffic - {email};
          ClearGlobals(email);
          ClearedMore(old(globals), gone, email);
          gone := gone + {email};
        }
      }
    }

    /** On success the state is in line; on failure the caller discards it. */
    method SyncClients() returns (ok: bool)
      modifies this`traffic, this`nextClientId, this`globals
      ensures ok <==> Synced(old(Value())).Some?
      ensures ok ==> Value() == Synced(old(Value())).value
    {
      var seen;
      ok, seen := SyncRows();
      if !ok { return; }
      if |seen| > MAX_CLIENTS { return false; }
      DropUnseen(seen);
    }

    // ---------- The edits ----------

    method PutInbound(config: Config, sent: Inbound, id: int) returns (ok: bool)
      modifies this`inbounds, this`nextId
      ensures PutResult(config, old(Value()), sent, id) == if ok then Some(Value()) else None
    {
      if sent.protocol == "vless" && exists c :: c in sent.clients && !ValidClient(c) { return false; }
      var ib := WithDefault(config, sent);
      var target := id;
      if target == 0 { target := TagOwner(ib.tag); }
      if target > 0 {
        var j := Find(target);
        if j == |inbounds| { return false; }
        inbounds := inbounds[j := ib.(id := target, up := inbounds[j].up, down := inbounds[j].down)];
      } else {
        inbounds := inbounds + [ib.(id := nextId, up := 0, down := 0)];
        nextId := nextId + 1;
      }
      ok := true;
    }

    method TagOwner(tag: string) returns (id: int)
      ensures id == IdOfTag(inbounds, tag)
    {
      id := 0;
      for j := 0 to |inbounds|
        invariant IdOfTag(inbounds, tag) == IdOfTag(inbounds[j..], tag)
      {
        assert inbounds[j..][0] == inbounds[j] && inbounds[j..][1..] == inbounds[j + 1..];
        if inbounds[j].tag == tag { return inbounds[j].id; }
      }
      assert inbounds[|inbounds|..] == [];
    }

    method DeleteInbound(id: int)
      modifies this`inbounds
      ensures Value() == DeleteResult(old(Value()), id)
    {
      var j := Find(id);
      if j < |inbounds| { inbounds := inbounds[..j] + inbounds[j + 1..]; }
    }

    method ChangeClient(oldEmail: string, c: Client, ids: seq<int>, op: ClientOp) returns (ok: bool)
      modifies this`inbounds, this`traffic, this`globals
      ensures ChangeResult(old(Value()), oldEmail, c, ids, op) == if ok then Some(Value()) else None
    {
      ok := false;
      if (op.Add? || op.Update?) && !ValidClient(c) { return; }
      if (op.Add? || op.Detach?) && ids == [] { return; }
      for i := 0 to |ids|
        invariant Value() == old(Value()) && forall k :: 0 <= k < i ==> Has(inbounds, ids[k])
      {
        var j := Find(ids[i]);
        if j == |inbounds| { return; }
      }
      if op.Update? && oldEmail !in traffic { return; }
      if op.Update? && c.email != oldEmail {
        if c.email in traffic { return; }
        var t := traffic[oldEmail];
        traffic := traffic - {oldEmail};
        traffic := traffic[c.email := t.(email := c.email)];
        ClearGlobals(oldEmail);
      }
      for j := 0 to |inbounds|
        modifies this`inbounds
        invariant |inbounds| == |old(inbounds)|
        invariant forall i :: 0 <= i < j ==> inbounds[i] == ChangedInbound(old(inbounds)[i], oldEmail, c, ids, op)
        invariant forall i :: j <= i < |inbounds| ==> inbounds[i] == old(inbounds)[i]
      {
        var cs := ChangeListed(inbounds[j].clients, oldEmail, c, op, Selected(inbounds[j], ids));
        inbounds := inbounds[j := inbounds[j].(clients := cs)];
      }
      assert inbounds == ChangeResult(old(Value()), oldEmail, c, ids, op).value.inbounds;
      ok := true;
    }

    /** Zeroes one client's usage and switches it on everywhere. */
    method ResetOne(email: string)
      requires email in traffic
      modifies this`inbounds, this`traffic, this`globals
      ensures Value() == ResetClient(old(Value()), email)
    {
      traffic := traffic[email := traffic[email].(up := 0, down := 0, enable := true)];
      ClearGlobals(email);
      SetClient(email, Enable(true));
    }

    method ResetTraffic(email: string, id: int) returns (ok: bool)
      modifies this`inbounds, this`traffic, this`globals
      ensures ResetResult(old(Value()), email, id) == if ok then Some(Value()) else None
    {
      if email != "" && email !in traffic { return false; }
      if id > 0 {
        var j := Find(id);
        if j == |inbounds| { return false; }
      }
      ok := true;
      if email == "" {
        for j := 0 to |inbounds|
          modifies this`inbounds
          invariant |inbounds| == |old(inbounds)|
          invariant forall i :: 0 <= i < j ==> inbounds[i] == ZeroInbound(old(inbounds)[i], id)
          invariant forall i :: j <= i < |inbounds| ==> inbounds[i] == old(inbounds)[i]
        {
          if id == 0 || inbounds[j].id == id { inbounds := inbounds[j := inbounds[j].(up := 0, down := 0)]; }
        }
        assert inbounds == ResetResult(old(Value()), email, id).value.inbounds;
        return;
      }
      var listed := false;
      for j := 0 to |inbounds|
        invariant Value() == old(Value())
        invariant listed == exists i :: 0 <= i < j && (id == 0 || id == inbounds[i].id) && Lists(inbounds[i], email)
      {
        if (id == 0 || id == inbounds[j].id) && Lists(inbounds[j], email) { listed := true; }
      }
      if listed { ResetOne(email); }
    }

    method ResetClientTraffics(emails: seq<string>)
      modifies this`inbounds, this`traffic, this`globals
      ensures Value() == ResetAll(old(Value()), emails)
    {
      for i := 0 to |emails|
        invariant Value() == ResetAll(old(Value()), emails[..i])
      {
        assert emails[..i + 1][..i] == emails[..i];
        if emails[i] in traffic { ResetOne(emails[i]); }
      }
      assert emails[..|emails|] == emails;
    }

    method PushGlobals(master: string, rows: seq<Traffic>, now: int) returns (ok: bool)
      modifies this`globals
      ensures PushRefused(old(Value()), master, rows) <==> !ok
      ensures ok ==> PushResult(old(Value()), master, rows, now) == Some(Value())
    {
      if master == "" || |master| > 128 { return false; }
      if |globals| >= MAX_MASTERS && master !in globals { return false; }
      if master !in globals { globals := globals[master := map[]]; }
      ghost var known := globals[master];
      ghost var start := globals;
      for i := 0 to |rows|
        invariant forall k :: 0 <= k < i ==> rows[k].up >= 0 && rows[k].down >= 0
        invariant globals == start[master := PushRows(old(Value()), known, rows[..i], now)]
      {
        assert rows[..i + 1][..i] == rows[..i];
        if rows[i].up < 0 || rows[i].down < 0 { return false; }
        if rows[i].email in traffic {
          globals := globals[master := globals[master][rows[i].email := Global(rows[i].up, rows[i].down, now)]];
        }
      }
      assert rows[..|rows|] == rows;
      assert globals == old(globals)[master := PushRows(old(Value()), known, rows, now)];
      ok := true;
    }

    /** Carries out one edit; on failure the caller discards the state. */
    method Run(config: Config, e: Edit) returns (ok: bool)
      modifies this
      ensures ok <==> Edited(config, old(Value()), e).Some?
      ensures ok ==> Edited(config, old(Value()), e) == Some(Value())
    {
      ok := true;
      match e
      case PutInbound(ib, id) => ok := PutInbound(config, ib, id);
      case DeleteInbound(id) => DeleteInbound(id);
      case ChangeClient(oldEmail, c, ids, op) => ok := ChangeClient(oldEmail, c, ids, op);
      case ResetTraffic(email, id) => ok := ResetTraffic(email, id);
      case ResetClientTraffics(emails) => ResetClientTraffics(emails);
      case PushGlobals(master, rows, now) => ok := PushGlobals(master, rows, now);
    }

    /** The checks of a commit, with the ports and tags met so far in sets. */
    method Check(config: Config) returns (ok: bool)
      ensures ok <==> Checked(config, Value())
    {
      if |inbounds| > MAX_INBOUNDS { return false; }
      var ports, tags := {}, {};
      for j := 0 to |inbounds|
        invariant forall p :: p in ports <==> exists i :: 0 <= i < j && inbounds[i].port == p
        invariant forall t :: t in tags <==> exists i :: 0 <= i < j && inbounds[i].tag == t
        invariant forall i :: 0 <= i < j ==> Admissible(config, inbounds[i])
        invariant forall i, k :: 0 <= i < k < j ==> inbounds[i].port != inbounds[k].port && inbounds[i].tag != inbounds[k].tag
      {
        if !Admissible(config, inbounds[j]) || inbounds[j].port in ports || inbounds[j].tag in tags { return false; }
        ports, tags := ports + {inbounds[j].port}, tags + {inbounds[j].tag};
      }
      ok := true;
    }

    // ---------- Sampling ----------

    /** Credits one counter reading. */
    method Count(key: string, value: int, baseline: Counters, now: int)
      modifies this`inbounds, this`traffic
      ensures Value() ==
        if Counts(key, baseline, value) then Bump(old(Value()), Parse(key).value, Delta(baseline, key, value), now) else old(Value())
    {
      if value < 0 { return; }
      var delta := value - Get(baseline, key);
      if delta < 0 { delta := value; }
      if delta == 0 { return; }
      var stat := Parse(key);
      if stat.None? { return; }
      match stat.value
      case UserStat(email, direction) => CountUser(email, direction, delta, now);
      case InboundStat(tag, direction) => CountInbound(tag, direction, delta);
    }

    method CountUser(email: string, direction: string, delta: int, now: int)
      modifies this`inbounds, this`traffic
      ensures Value() == Bump(old(Value()), UserStat(email, direction), delta, now)
    {
      if email !in traffic { return; }
      var t := traffic[email];
      if direction == UPLINK { t := t.(up := t.up + delta); }
      else if direction == DOWNLINK { t := t.(down := t.down + delta); }
      else { return; }
      t := t.(lastOnline := now);
      if t.expiry < 0 {
        t := t.(expiry := now - t.expiry);
        SetClient(t.email, Expiry(t.expiry));
      }
      traffic := traffic[email := t];
    }

    method CountInbound(tag: string, direction: string, delta: int)
      modifies this`inbounds
      ensures inbounds == seq(|old(inbounds)|, i requires 0 <= i < |old(inbounds)| => BumpInbound(old(inbounds)[i], tag, direction, delta))
    {
      for j := 0 to |inbounds|
        invariant |inbounds| == |old(inbounds)|
        invariant forall i :: 0 <= i < j ==> inbounds[i] == BumpInbound(old(inbounds)[i], tag, direction, delta)
        invariant forall i :: j <= i < |inbounds| ==> inbounds[i] == old(inbounds)[i]
      {
        var ib := inbounds[j];
        if ib.tag == tag {
          if direction == UPLINK { ib := ib.(up := ib.up + delta); }
          else if direction == DOWNLINK { ib := ib.(down := ib.down + delta); }
        }
        inbounds := inbounds[j := ib];
      }
    }

    /** Credits every counter, in whatever order they come. */
    method Credit(values: Counters, baseline: Counters, now: int)
      requires now >= 0 && RowsNamed(Value())
      modifies this`inbounds, this`traffic
      ensures Value() == Credited(old(Value()), values, baseline, now)
    {
      var todo := values.Keys;
      ghost var done: Counters := map[];
      NothingCredited(Value(), baseline, now);
      while todo != {}
        invariant done == map k | k in values && k !in todo :: values[k]
        invariant todo <= values.Keys && Value() == Credited(old(Value()), done, baseline, now)
        decreases todo
      {
        var key :| key in todo;
        OneMoreCounter(old(Value()), done, baseline, key, values[key], now);
        Count(key, values[key], baseline, now);
        todo := todo - {key};
        done := done[key := values[key]];
      }
      assert done == values;
    }

    /** Switches off every client that has used up its quota or time, row and listings together. */
    method EnforceClients(now: int)
      requires RowsNamed(Value())
      modifies this`inbounds, this`traffic
      ensures Value() == EnforcedFor(old(Value()), old(traffic).Keys, now)
    {
      var todo := traffic.Keys;
      ghost var done: set<string> := {};
      NothingEnforced(Value(), now);
      while todo != {}
        invariant done == old(traffic).Keys - todo && todo <= old(traffic).Keys
        invariant Value() == EnforcedFor(old(Value()), done, now)
        decreases todo
      {
        var email :| email in todo;
        EnforceOne(old(Value()), done, email, now);
        EnforceOneRow(old(Value()), done, email, now);
        if traffic[email].enable && Exhausted(globals, traffic[email], now) {
          traffic := traffic[email := traffic[email].(enable := false)];
          SetClient(email, Enable(false));
        }
        todo := todo - {email};
        done := done + {email};
      }
      assert done == old(traffic).Keys;
    }

    method CloseInbounds(now: int)
      modifies this`inbounds
      ensures |inbounds| == |old(inbounds)|
      ensures forall i :: 0 <= i < |inbounds| ==>
        inbounds[i] == if Closed(old(inbounds)[i], now) then old(inbounds)[i].(enable := false) else old(inbounds)[i]
    {
      for j := 0 to |inbounds|
        invariant |inbounds| == |old(inbounds)|
        invariant forall i :: 0 <= i < |inbounds| ==>
          inbounds[i] == if i < j && Closed(old(inbounds)[i], now) then old(inbounds)[i].(enable := false) else old(inbounds)[i]
      {
        if Closed(inbounds[j], now) { inbounds := inbounds[j := inbounds[j].(enable := false)]; }
      }
    }

    /** Forgets overlay rows older than a day, and masters without rows. */
    method Prune(now: int)
      modifies this`globals
      ensures globals == FreshGlobals(old(globals), now)
    {
      var todo := globals.Keys;
      while todo != {}
        invariant todo <= old(globals).Keys
        invariant forall m :: m in globals <==> m in old(globals) && (m in todo || FreshRows(old(globals)[m], now) != map[])
        invariant forall m :: m in globals ==> globals[m] == if m in todo then old(globals)[m] else FreshRows(old(globals)[m], now)
        decreases todo
      {
        var m :| m in todo;
        var rows := DropStale(globals[m], now);
        if rows == map[] { globals := globals - {m}; } else { globals := globals[m := rows]; }
        todo := todo - {m};
      }
    }

    /** One sample: credit, enforce, prune. */
    method Sample(values: Counters, baseline: Counters, now: int)
      requires now >= 0 && RowsNamed(Value())
      modifies this`inbounds, this`traffic, this`globals
      ensures Value() == Sampled(old(Value()), values, baseline, now)
    {
      Credit(values, baseline, now);
      ghost var c := Value();
      EnforceClients(now);
      CloseInbounds(now);
      AllEnforced(c, now);
      assert Value() == Enforced(c, now);
      Prune(now);
    }

    // ---------- The table the state asks for ----------

    method LiveUsers(ib: Inbound, now: int) returns (users: map<string, Account>)
      ensures users == Users(Value(), ib, |ib.clients|, now)
    {
      users := map[];
      for i := 0 to |ib.clients|
        invariant users == Users(Value(), ib, i, now)
      {
        var c := ib.clients[i];
        if c.email in traffic && c.enable && !Exhausted(globals, traffic[c.email], now) {
          var flow := c.flow;
          if ib.disableFlow || ib.stream.network == Xhttp { flow := ""; }
          users := users[c.email := Account(c.id, flow)];
        }
      }
    }

    method Wanted(now: int) returns (table: seq<Live>)
      ensures table == Desired(Value(), now)
    {
      table := [];
      for j := 0 to |inbounds|
        invariant table == Table(Value(), j, now)
      {
        var ib := inbounds[j];
        if ib.enable && !Closed(ib, now) {
          var users := LiveUsers(ib, now);
          table := table + [Live(ib.tag, ib.listen, ib.port, ib.stream, users)];
        }
      }
    }
  }
}
