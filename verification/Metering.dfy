/** Traffic accounting over whole runs: bytes moved, bytes metered, bytes pending and bytes lost. */
module Metering {
  import opened Options
  import opened NodeTypes
  import opened StatKeys
  import opened Engine
  import opened Sync
  import opened Edits
  import opened Sampling
  import opened Invariant
  import opened Histories
  import opened EditEffects
  import opened Runs

  /** The node's accounts: `baseline` is the last reading of the process generation `generation`;
      `settled` sums the last readings of all earlier generations the node has sampled. */
  datatype Books = Books(baseline: Counters, generation: nat, settled: Counters)

  datatype World = World(state: Snapshot, books: Books, meter: Meter)

  datatype Tick =
    | Elapse                      // the process moves bytes, or is replaced
    | Observe                     // the node looks at the process generation
    | Sampling(now: int)          // a successful sample of the current generation
    | Editing(config: Config, edit: Edit)
    | Stamping(at: int, running: bool)

  /** Looking at the generation: a new one starts from an empty baseline. */
  function Observed(b: Books, generation: nat): Books {
    if b.generation == generation then b else Books(map[], generation, Plus(b.settled, b.baseline))
  }

  ghost predicate Ticks(w: World, t: Tick, v: World) {
    match t
    case Elapse => v.state == w.state && v.books == w.books && Advances(w.meter, v.meter)
    case Observe => v == w.(books := Observed(w.books, w.meter.generation))
    case Sampling(now) =>
      && w.books.generation == w.meter.generation
      && v == World(Sampled(w.state, w.meter.counters, w.books.baseline, now), w.books.(baseline := w.meter.counters), w.meter)
    case Editing(config, e) => Committed(config, w.state, e) == Some(v.state) && v.books == w.books && v.meter == w.meter
    case Stamping(at, running) => v == w.(state := Stamped(w.state, at, running))
  }

  /** Bytes the counter k really moved, over all generations. */
  function Moved(m: Meter, k: string): int { Get(m.retired, k) + Get(m.counters, k) }

  /** Bytes the node has read: the last reading of every generation. */
  function Metered(b: Books, k: string): int { Get(b.settled, k) + Get(b.baseline, k) }

  /** Bytes moved by the current generation that the next sample will still find. */
  function Pending(w: World, k: string): int {
    Get(w.meter.counters, k) - if w.books.generation == w.meter.generation then Get(w.books.baseline, k) else 0
  }

  /** Bytes no sample will ever find: moved between the last reading of a generation and its end. */
  function Lost(w: World, k: string): int {
    Get(w.meter.retired, k) - Get(w.books.settled, k) - if w.books.generation == w.meter.generation then 0 else Get(w.books.baseline, k)
  }

  ghost predicate BooksOk(b: Books, m: Meter) {
    && b.generation <= m.generation
    && NonNegative(m.counters) && NonNegative(b.baseline)
    && forall k :: if b.generation == m.generation
         then Get(b.baseline, k) <= Get(m.counters, k) && Get(b.settled, k) <= Get(m.retired, k)
         else Get(b.settled, k) + Get(b.baseline, k) <= Get(m.retired, k)
  }

  ghost predicate WorldOk(w: World) { StateOk(w.state) && BooksOk(w.books, w.meter) }

  lemma ElapseKeepsBooks(b: Books, m: Meter, m': Meter)
    requires BooksOk(b, m) && Advances(m, m')
    ensures BooksOk(b, m')
  {
    forall k
      ensures if b.generation == m'.generation
        then Get(b.baseline, k) <= Get(m'.counters, k) && Get(b.settled, k) <= Get(m'.retired, k)
        else Get(b.settled, k) + Get(b.baseline, k) <= Get(m'.retired, k)
    {
      if k in m.counters && b.generation == m'.generation { assert k in m'.counters; }
    }
  }

  lemma ObserveKeepsBooks(b: Books, m: Meter)
    requires BooksOk(b, m)
    ensures BooksOk(Observed(b, m.generation), m)
    ensures forall k :: Metered(Observed(b, m.generation), k) == Metered(b, k)
  {
  }

  lemma SampleKeepsBooks(b: Books, m: Meter)
    requires BooksOk(b, m) && b.generation == m.generation
    ensures BooksOk(b.(baseline := m.counters), m)
  {
  }

  lemma TickKeepsWorldOk(w: World, t: Tick, v: World)
    requires WorldOk(w) && Ticks(w, t, v)
    ensures WorldOk(v)
  {
    match t
    case Elapse => ElapseKeepsBooks(w.books, w.meter, v.meter);
    case Observe => ObserveKeepsBooks(w.books, w.meter);
    case Sampling(now) =>
      SampleKeepsStateOk(w.state, w.meter.counters, w.books.baseline, now);
      SampleKeepsBooks(w.books, w.meter);
    case Editing(config, e) => CommitKeepsStateOk(config, w.state, e);
    case Stamping(_, _) => StampKeepsStateOk(w.state, v.state);
  }

  // ---------- Conservation ----------

  lemma BytesAreConserved(w: World, k: string)
    requires WorldOk(w)
    ensures Moved(w.meter, k) == Metered(w.books, k) + Pending(w, k) + Lost(w, k)
    ensures Pending(w, k) >= 0 && Lost(w, k) >= 0 && Metered(w.books, k) <= Moved(w.meter, k)
  {
  }

  /** A loss is never made good, and only replacing the process loses bytes. */
  lemma LossesOnlyGrow(w: World, t: Tick, v: World, k: string)
    requires WorldOk(w) && Ticks(w, t, v)
    ensures Lost(v, k) >= Lost(w, k)
    ensures Lost(v, k) > Lost(w, k) ==> t.Elapse? && v.meter.generation > w.meter.generation
  {
    if t.Elapse? && w.meter.generation < v.meter.generation {
      assert Get(v.meter.retired, k) >= Get(w.meter.retired, k) + Get(w.meter.counters, k);
    }
  }

  /** What one tick loses: when a process is replaced, its final reading less the last reading the node took of it. */
  function LossAt(w: World, t: Tick, v: World, k: string): int {
    if t.Elapse? && w.meter.generation < v.meter.generation then
      Get(v.meter.retired, k) - Get(w.meter.retired, k)
        - if w.books.generation == w.meter.generation then Get(w.books.baseline, k) else 0
    else 0
  }

  /** What a run has lost. */
  function LossAlong(worlds: seq<World>, ticks: seq<Tick>, k: string): int
    requires |worlds| == |ticks| + 1
  {
    if ticks == [] then 0
    else
      var n := |ticks| - 1;
      LossAlong(worlds[..n + 1], ticks[..n], k) + LossAt(worlds[n], ticks[n], worlds[n + 1], k)
  }

  /** The books balance for counter k between w and v if `loss` bytes were lost meanwhile. */
  predicate Balanced(w: World, v: World, loss: int, k: string) {
    && Moved(v.meter, k) - Moved(w.meter, k) == Metered(v.books, k) - Metered(w.books, k) + Pending(v, k) - Pending(w, k) + loss
    && loss >= 0 && Pending(v, k) >= 0
  }

  lemma ElapseConserves(w: World, v: World, k: string)
    requires BooksOk(w.books, w.meter) && BooksOk(v.books, v.meter) && v.books == w.books && Advances(w.meter, v.meter)
    ensures Balanced(w, v, LossAt(w, Elapse, v, k), k)
  {
    if w.meter.generation < v.meter.generation {
      assert Get(v.meter.retired, k) >= Get(w.meter.retired, k) + Get(w.meter.counters, k);
    }
  }

  lemma SampleConserves(w: World, v: World, k: string)
    requires BooksOk(w.books, w.meter) && w.books.generation == w.meter.generation
    requires v.meter == w.meter && v.books == w.books.(baseline := w.meter.counters)
    ensures Balanced(w, v, 0, k)
  {
  }

  lemma ObserveConserves(w: World, v: World, k: string)
    requires BooksOk(w.books, w.meter) && v.meter == w.meter && v.books == Observed(w.books, w.meter.generation)
    ensures Balanced(w, v, 0, k)
  {
  }

  lemma StillConserves(w: World, v: World, k: string)
    requires BooksOk(w.books, w.meter) && v.meter == w.meter && v.books == w.books
    ensures Balanced(w, v, 0, k)
  {
  }

  lemma TickConserves(w: World, t: Tick, v: World, k: string)
    requires Good()(w) && Ticks(w, t, v)
    ensures Balanced(w, v, LossAt(w, t, v, k), k)
  {
    match t
    case Elapse =>
      ElapseKeepsBooks(w.books, w.meter, v.meter);
      ElapseConserves(w, v, k);
    case Observe => ObserveConserves(w, v, k);
    case Sampling(_) => SampleConserves(w, v, k);
    case Editing(_, _) => StillConserves(w, v, k);
    case Stamping(_, _) => StillConserves(w, v, k);
  }

  lemma BalanceOn(a: World, w: World, t: Tick, v: World, loss: int, k: string)
    requires Balanced(a, w, loss, k) && Good()(w) && TickStep()(w, t, v)
    ensures Balanced(a, v, loss + LossAt(w, t, v, k), k)
  {
    TickConserves(w, t, v, k);
  }

  lemma BalanceStart(w: World, k: string)
    requires Good()(w)
    ensures Balanced(w, w, 0, k)
  {
    BytesAreConserved(w, k);
  }

  /** Conservation over every run: each byte moved since the start is metered, waits for the next sample, or was lost
      between the last reading of a process and its end. */
  lemma {:induction false} RunConserves(worlds: seq<World>, ticks: seq<Tick>, k: string)
    requires Run(TickStep(), worlds, ticks) && Good()(worlds[0])
    ensures Balanced(worlds[0], worlds[|ticks|], LossAlong(worlds, ticks, k), k)
  {
    var n := |ticks|;
    if n == 0 {
      BalanceStart(worlds[0], k);
    } else {
      Shortened(TickStep(), worlds, ticks);
      RunConserves(worlds[..n], ticks[..n - 1], k);
      GoodThroughout(worlds, ticks, n - 1);
      assert TickStep()(worlds[n - 1], ticks[n - 1], worlds[n - 1 + 1]);
      BalanceOn(worlds[0], worlds[n - 1], ticks[n - 1], worlds[n], LossAlong(worlds[..n], ticks[..n - 1], k), k);
    }
  }

  // ---------- Recorded usage ----------

  function UpKey(email: string): string { Key(UserStat(email, UPLINK)) }

  function DownKey(email: string): string { Key(UserStat(email, DOWNLINK)) }

  /** Bytes metered for a user: nothing unless the sampler can tell the counter from its name. */
  function UserMetered(b: Books, email: string, direction: string): int {
    if Plain(email) then Metered(b, Key(UserStat(email, direction))) else 0
  }

  /** From w to v the client's recorded usage grew by exactly what was metered for it. */
  predicate RecordedUsage(w: World, v: World, email: string)
    requires email in w.state.traffic && email in v.state.traffic
  {
    var t, u := w.state.traffic[email], v.state.traffic[email];
    && u.up - t.up == UserMetered(v.books, email, UPLINK) - UserMetered(w.books, email, UPLINK)
    && u.down - t.down == UserMetered(v.books, email, DOWNLINK) - UserMetered(w.books, email, DOWNLINK)
  }

  ghost predicate Recorded(w: World, v: World, email: string) {
    && email in w.state.traffic && email in v.state.traffic && RecordedUsage(w, v, email)
    && (forall k :: Lost(v, k) >= Lost(w, k))
  }

  /** Steps on which the client stays and is neither reset nor renamed. */
  ghost predicate Sparing(email: string, w: World, t: Tick, v: World) {
    Ticks(w, t, v) && email in w.state.traffic && email in v.state.traffic && (t.Editing? ==> !SetsUsage(t.edit, email))
  }

  lemma CreditIsMetered(b: Books, m: Meter, email: string, direction: string)
    requires BooksOk(b, m) && b.generation == m.generation
    ensures StatCredit(m.counters, b.baseline, UserStat(email, direction)) ==
      UserMetered(b.(baseline := m.counters), email, direction) - UserMetered(b, email, direction)
  {
    var k := Key(UserStat(email, direction));
    assert 0 <= Get(b.baseline, k) <= Get(m.counters, k);
  }

  lemma SampleRecords(email: string, w: World, now: int, v: World)
    requires WorldOk(w) && Ticks(w, Sampling(now), v) && email in w.state.traffic
    ensures email in v.state.traffic && RecordedUsage(w, v, email)
  {
    assert w.state.traffic[email].email == email;
    SampleCredits(w.state, w.meter.counters, w.books.baseline, now, email);
    CreditIsMetered(w.books, w.meter, email, UPLINK);
    CreditIsMetered(w.books, w.meter, email, DOWNLINK);
  }

  lemma ObserveRecords(email: string, b: Books, m: Meter, direction: string)
    requires BooksOk(b, m)
    ensures UserMetered(Observed(b, m.generation), email, direction) == UserMetered(b, email, direction)
  {
    ObserveKeepsBooks(b, m);
  }

  lemma EditRecords(email: string, w: World, config: Config, e: Edit, v: World)
    requires WorldOk(w) && Ticks(w, Editing(config, e), v) && !SetsUsage(e, email)
    requires email in w.state.traffic && email in v.state.traffic
    ensures RecordedUsage(w, v, email)
  {
    CommitSparesUsage(config, w.state, e, email);
  }

  lemma TickRecords(email: string, w: World, t: Tick, v: World)
    requires WorldOk(w) && Sparing(email, w, t, v)
    ensures Recorded(w, v, email)
  {
    forall k ensures Lost(v, k) >= Lost(w, k) { LossesOnlyGrow(w, t, v, k); }
    match t
    case Elapse =>
    case Observe =>
      ObserveRecords(email, w.books, w.meter, UPLINK);
      ObserveRecords(email, w.books, w.meter, DOWNLINK);
    case Sampling(now) => SampleRecords(email, w, now, v);
    case Editing(config, e) => EditRecords(email, w, config, e, v);
    case Stamping(_, _) =>
  }

  lemma RecordedTrans(a: World, w: World, v: World, email: string)
    requires Recorded(a, w, email) && Recorded(w, v, email)
    ensures Recorded(a, v, email)
  {
  }

  ghost function SparingStep(email: string): (World, Tick, World) -> bool { (w, t, v) => Sparing(email, w, t, v) }

  ghost function Good(): World -> bool { w => WorldOk(w) }

  ghost predicate RecordedIfThere(email: string, w: World, v: World) { email in w.state.traffic ==> Recorded(w, v, email) }

  ghost function RecordedSince(email: string): (World, World) -> bool { (w: World, v: World) => RecordedIfThere(email, w, v) }

  lemma GoodStays(email: string)
    ensures forall w, t, v :: Good()(w) && SparingStep(email)(w, t, v) ==> Good()(v)
  {
    forall w, t, v | Good()(w) && SparingStep(email)(w, t, v) ensures Good()(v) { TickKeepsWorldOk(w, t, v); }
  }

  lemma RecordsThroughout(email: string, worlds: seq<World>, ticks: seq<Tick>, i: nat, k: nat)
    requires Run(SparingStep(email), worlds, ticks) && Good()(worlds[0]) && i <= k < |worlds|
    ensures RecordedSince(email)(worlds[i], worlds[k])
  {
    GoodStays(email);
    forall a, w, t, v | RecordedSince(email)(a, w) && Good()(w) && SparingStep(email)(w, t, v)
      ensures RecordedSince(email)(a, v)
    {
      TickRecords(email, w, t, v);
      if email in a.state.traffic { RecordedTrans(a, w, v, email); }
    }
    Throughout(SparingStep(email), Good(), RecordedSince(email), worlds, ticks, i, k);
  }

  /** Accounting over every run: between resets a client's recorded usage is exactly what was metered,
      that is the last reading of every process generation. */
  lemma RunRecords(email: string, worlds: seq<World>, ticks: seq<Tick>, i: nat, k: nat)
    requires Run(SparingStep(email), worlds, ticks) && WorldOk(worlds[0]) && i <= k < |worlds|
    requires email in worlds[i].state.traffic
    ensures Recorded(worlds[i], worlds[k], email)
  {
    RecordsThroughout(email, worlds, ticks, i, k);
    var w, v := worlds[i], worlds[k];
    assert RecordedSince(email)(w, v);
  }

  /** Recorded usage is at most the bytes really moved since, plus those still pending at the start. */
  predicate Bounded(w: World, v: World, email: string) {
    && email in w.state.traffic && email in v.state.traffic
    && v.state.traffic[email].up - w.state.traffic[email].up
         <= Moved(v.meter, UpKey(email)) - Moved(w.meter, UpKey(email)) + Pending(w, UpKey(email))
    && v.state.traffic[email].down - w.state.traffic[email].down
         <= Moved(v.meter, DownKey(email)) - Moved(w.meter, DownKey(email)) + Pending(w, DownKey(email))
  }

  lemma MeteredIsBounded(w: World, v: World, email: string, direction: string)
    requires WorldOk(w) && WorldOk(v)
    requires forall k :: Moved(v.meter, k) >= Moved(w.meter, k) && Lost(v, k) >= Lost(w, k)
    ensures var k := Key(UserStat(email, direction));
      UserMetered(v.books, email, direction) - UserMetered(w.books, email, direction)
        <= Moved(v.meter, k) - Moved(w.meter, k) + Pending(w, k)
  {
    var k := Key(UserStat(email, direction));
    BytesAreConserved(w, k);
    BytesAreConserved(v, k);
  }

  lemma RecordedIsBounded(w: World, v: World, email: string)
    requires WorldOk(w) && WorldOk(v) && Recorded(w, v, email)
    requires forall k :: Moved(v.meter, k) >= Moved(w.meter, k)
    ensures Bounded(w, v, email)
  {
    MeteredIsBounded(w, v, email, UPLINK);
    MeteredIsBounded(w, v, email, DOWNLINK);
  }

  lemma TickMoves(w: World, t: Tick, v: World, k: string)
    requires WorldOk(w) && Ticks(w, t, v)
    ensures Moved(v.meter, k) >= Moved(w.meter, k)
  {
    if t.Elapse? {
      if w.meter.generation < v.meter.generation {
        assert Get(v.meter.retired, k) >= Get(w.meter.retired, k) + Get(w.meter.counters, k);
      } else if k in w.meter.counters {
        assert k in v.meter.counters;
      }
    }
  }

  ghost predicate MovedOnly(w: World, v: World) { forall k :: Moved(v.meter, k) >= Moved(w.meter, k) }

  ghost function MovedSince(): (World, World) -> bool { (w: World, v: World) => MovedOnly(w, v) }

  lemma MovesOn(a: World, w: World, t: Tick, v: World)
    requires MovedSince()(a, w) && WorldOk(w) && Ticks(w, t, v)
    ensures MovedSince()(a, v)
  {
    forall key ensures Moved(v.meter, key) >= Moved(a.meter, key) {
      TickMoves(w, t, v, key);
      assert Moved(w.meter, key) >= Moved(a.meter, key);
    }
  }

  lemma MovesThroughout(email: string, worlds: seq<World>, ticks: seq<Tick>, i: nat, k: nat)
    requires Run(SparingStep(email), worlds, ticks) && Good()(worlds[0]) && i <= k < |worlds|
    ensures Good()(worlds[i]) && Good()(worlds[k]) && MovedSince()(worlds[i], worlds[k])
  {
    GoodStays(email);
    forall a, w, t, v | MovedSince()(a, w) && Good()(w) && SparingStep(email)(w, t, v) ensures MovedSince()(a, v) {
      MovesOn(a, w, t, v);
    }
    Always(SparingStep(email), Good(), worlds, ticks, i);
    Always(SparingStep(email), Good(), worlds, ticks, k);
    Throughout(SparingStep(email), Good(), MovedSince(), worlds, ticks, i, k);
  }

  /** Over every run recorded usage never exceeds the true bytes. */
  lemma NeverOvercounts(email: string, worlds: seq<World>, ticks: seq<Tick>, i: nat, k: nat)
    requires Run(SparingStep(email), worlds, ticks) && WorldOk(worlds[0]) && i <= k < |worlds|
    requires email in worlds[i].state.traffic
    ensures Bounded(worlds[i], worlds[k], email)
  {
    MovesThroughout(email, worlds, ticks, i, k);
    RunRecords(email, worlds, ticks, i, k);
    var w, v := worlds[i], worlds[k];
    assert MovedSince()(w, v) && Good()(w) && Good()(v);
    RecordedIsBounded(w, v, email);
  }

  lemma RowIsListed(s: Snapshot, email: string) returns (i: nat, k: nat)
    requires InLine(s) && email in s.traffic
    ensures i < |s.inbounds| && k < |s.inbounds[i].clients| && s.inbounds[i].clients[k].email == email
  {
    i :| 0 <= i < |s.inbounds| && Lists(s.inbounds[i], email);
    k :| 0 <= k < |s.inbounds[i].clients| && s.inbounds[i].clients[k].email == email;
  }

  /** The edits that reset the client: alone, through any inbound or the one named, or with others. */
  predicate Resets(s: Snapshot, e: Edit, email: string) {
    match e
    case ResetTraffic(m, id) => m == email && email != "" && ListedUnder(s, email, id)
    case ResetClientTraffics(emails) => email in emails
    case _ => false
  }

  ghost predicate ResetAmong(s: Snapshot, d: Snapshot, email: string) {
    exists emails: seq<string> :: email in emails && ResetExactly(s, emails, d)
  }

  lemma ResetDraftIs(config: Config, s: Snapshot, e: Edit, email: string, d: Snapshot)
    requires Resets(s, e, email) && Edited(config, s, e) == Some(d)
    ensures ResetAmong(s, d, email)
  {
    if e.ResetTraffic? {
      ResetEffect(s, email, e.id, d);
      assert email in [email] && ResetExactly(s, [email], d);
    } else {
      BulkResetEffect(s, e.emails);
      assert email in e.emails && ResetExactly(s, e.emails, d);
    }
  }

  lemma ResetListingIs(s: Snapshot, d: Snapshot, email: string, i: nat, k: nat)
    requires ResetAmong(s, d, email) && email in s.traffic
    requires i < |s.inbounds| && k < |s.inbounds[i].clients| && s.inbounds[i].clients[k].email == email
    ensures email in d.traffic && d.traffic[email].up == 0 && d.traffic[email].down == 0
    ensures i < |d.inbounds| && k < |d.inbounds[i].clients|
    ensures d.inbounds[i].clients[k] == s.inbounds[i].clients[k].(enable := true)
  {
    var emails: seq<string> :| email in emails && ResetExactly(s, emails, d);
    assert Reaches(s, emails, email);
  }

  lemma SyncedReset(d: Snapshot, email: string, n: Snapshot, i: nat, k: nat)
    requires Draft(d) && Synced(d) == Some(n) && StateOk(n)
    requires i < |d.inbounds| && k < |d.inbounds[i].clients| && d.inbounds[i].clients[k].email == email
    requires email in d.traffic && d.traffic[email].up == 0 && d.traffic[email].down == 0 && d.inbounds[i].clients[k].enable
    ensures email in n.traffic && n.traffic[email].up == 0 && n.traffic[email].down == 0 && n.traffic[email].enable
  {
    assert n.inbounds == d.inbounds;
    ListedAsRow(n, i, k);
    SyncedSparesUsage(d, email);
  }

  ghost function TickStep(): (World, Tick, World) -> bool { (w, t, v) => Ticks(w, t, v) }

  ghost predicate BoundedIfThere(email: string, w: World, v: World) { email in w.state.traffic ==> Bounded(w, v, email) }

  ghost function BoundedSince(email: string): (World, World) -> bool { (w: World, v: World) => BoundedIfThere(email, w, v) }

  lemma TicksKeepGood()
    ensures forall w, t, v :: Good()(w) && TickStep()(w, t, v) ==> Good()(v)
  {
    forall w, t, v | Good()(w) && TickStep()(w, t, v) ensures Good()(v) { TickKeepsWorldOk(w, t, v); }
  }

  lemma GoodThroughout(worlds: seq<World>, ticks: seq<Tick>, i: nat)
    requires Run(TickStep(), worlds, ticks) && Good()(worlds[0]) && i < |worlds|
    ensures Good()(worlds[i])
  {
    TicksKeepGood();
    Always(TickStep(), Good(), worlds, ticks, i);
  }

  lemma BoundedThroughout(email: string, worlds: seq<World>, ticks: seq<Tick>)
    requires Run(SparingStep(email), worlds, ticks) && Good()(worlds[0])
    ensures BoundedSince(email)(worlds[0], worlds[|ticks|])
  {
    if email in worlds[0].state.traffic { NeverOvercounts(email, worlds, ticks, 0, |ticks|); }
  }

  lemma StretchRun(email: string, worlds: seq<World>, ticks: seq<Tick>, i: nat, k: nat) returns (ws: seq<World>, ts: seq<Tick>)
    requires Run(TickStep(), worlds, ticks) && Good()(worlds[0]) && i <= k < |worlds|
    requires forall j :: i <= j < k ==> SparingStep(email)(worlds[j], ticks[j], worlds[j + 1])
    ensures Run(SparingStep(email), ws, ts) && Good()(ws[0]) && ws[0] == worlds[i] && ws[|ts|] == worlds[k]
  {
    TicksKeepGood();
    ws, ts := Cut(TickStep(), SparingStep(email), Good(), worlds, ticks, i, k);
  }

  lemma StretchRelates(email: string, worlds: seq<World>, ticks: seq<Tick>, i: nat, k: nat)
    requires Run(TickStep(), worlds, ticks) && Good()(worlds[0]) && i <= k < |worlds|
    requires forall j :: i <= j < k ==> SparingStep(email)(worlds[j], ticks[j], worlds[j + 1])
    ensures RecordedSince(email)(worlds[i], worlds[k]) && BoundedSince(email)(worlds[i], worlds[k])
  {
    var ws, ts := StretchRun(email, worlds, ticks, i, k);
    RecordsThroughout(email, ws, ts, 0, |ts|);
    BoundedThroughout(email, ws, ts);
  }

  /** Accounting on any stretch of any run of the node on which the client stays and is neither reset nor
      renamed: its usage grows by exactly the bytes metered, and by no more than the bytes moved or pending. */
  lemma StretchRecords(email: string, worlds: seq<World>, ticks: seq<Tick>, i: nat, k: nat)
    requires Run(TickStep(), worlds, ticks) && WorldOk(worlds[0]) && i <= k < |worlds|
    requires forall j :: i <= j < k ==> SparingStep(email)(worlds[j], ticks[j], worlds[j + 1])
    requires email in worlds[i].state.traffic
    ensures Recorded(worlds[i], worlds[k], email) && Bounded(worlds[i], worlds[k], email)
  {
    var first := worlds[0];
    assert Good()(first);
    StretchRelates(email, worlds, ticks, i, k);
    var w, v := worlds[i], worlds[k];
    assert RecordedSince(email)(w, v) && BoundedSince(email)(w, v);
  }

  /** A committed reset leaves the client enabled with zero usage, so from then on its usage is what was metered since. */
  lemma ResetZeroes(config: Config, s: Snapshot, e: Edit, email: string, n: Snapshot)
    requires StateOk(s) && email in s.traffic && Resets(s, e, email) && Committed(config, s, e) == Some(n)
    ensures email in n.traffic && n.traffic[email].up == 0 && n.traffic[email].down == 0 && n.traffic[email].enable
  {
    var d := Edited(config, s, e).value;
    CommitKeepsStateOk(config, s, e);
    EditedDraft(config, s, e);
    var i, k := RowIsListed(s, email);
    ResetDraftIs(config, s, e, email, d);
    ResetListingIs(s, d, email, i, k);
    SyncedReset(d, email, n, i, k);
  }

  // ---------- What a node records of its run ----------

  datatype Log = Log(worlds: seq<World>, ticks: seq<Tick>)

  /** A world in which nothing has been sampled yet. */
  function NewWorld(s: Snapshot): World { World(s, Books(map[], 0, map[]), Meter(0, map[], map[])) }

  ghost predicate Newborn(w: World) { Good()(w) && w == NewWorld(w.state) }

  /** Entry i of a log. */
  function At(g: Log, i: int): Option<World> { if 0 <= i < |g.worlds| then Some(g.worlds[i]) else None }

  /** A log is a run from a new world if each entry follows from the one before; stated so that only a proof that
      names an entry looks into it. */
  ghost predicate Sequential(g: Log) {
    && |g.worlds| == |g.ticks| + 1
    && forall i {:trigger At(g, i)} :: At(g, i).Some? ==>
         if i == 0 then Newborn(g.worlds[0]) else TickStep()(g.worlds[i - 1], g.ticks[i - 1], g.worlds[i])
  }

  /** The log is a run from a new world to w. */
  ghost function Leads(): (Log, World) -> bool { (g: Log, w: World) => Sequential(g) && g.worlds[|g.ticks|] == w }

  lemma LeadsAsRun(g: Log, w: World)
    requires Leads()(g, w)
    ensures Run(TickStep(), g.worlds, g.ticks) && Newborn(g.worlds[0]) && g.worlds[|g.ticks|] == w
  {
    assert At(g, 0).Some?;
    forall i | 0 <= i < |g.ticks| ensures TickStep()(g.worlds[i], g.ticks[i], g.worlds[i + 1]) {
      assert At(g, i + 1).Some?;
    }
  }

  lemma NewWorldOk(s: Snapshot)
    requires Sound()(s)
    ensures Leads()(Log([NewWorld(s)], []), NewWorld(s))
  {
    var w := NewWorld(s);
    var g := Log([w], []);
    assert Good()(w);
    assert Sequential(g);
  }

  function Longer(g: Log, t: Tick, v: World): Log { Log(g.worlds + [v], g.ticks + [t]) }

  lemma LeadsOn(g: Log, w: World, t: Tick, v: World)
    requires Leads()(g, w) && TickStep()(w, t, v)
    ensures Leads()(Longer(g, t, v), v)
  {
    var n := Longer(g, t, v);
    forall i | At(n, i).Some?
      ensures if i == 0 then Newborn(n.worlds[0]) else TickStep()(n.worlds[i - 1], n.ticks[i - 1], n.worlds[i])
    {
      if i <= |g.ticks| { assert At(g, i).Some?; }
    }
    assert Sequential(n) && n.worlds[|n.ticks|] == v;
  }

  /** Every world a run has led to is good. */
  lemma LeadsToGood(g: Log, w: World)
    requires Leads()(g, w)
    ensures Good()(w)
  {
    LeadsAsRun(g, w);
    GoodThroughout(g.worlds, g.ticks, |g.ticks|);
  }

  lemma BooksAreBehind(w: World)
    requires Good()(w)
    ensures w.books.generation <= w.meter.generation
  {
  }

  lemma LeadsToSound(g: Log, w: World)
    requires Leads()(g, w)
    ensures Sound()(w.state)
  {
    LeadsToGood(g, w);
  }

  /** The later log continues the earlier one. */
  predicate Extends(a: Log, b: Log) { a.worlds <= b.worlds && a.ticks <= b.ticks }

  /** From a to b nothing was edited. */
  ghost function Quiet(): (Log, Log) -> bool {
    (a: Log, b: Log) => Extends(a, b) && forall j :: |a.ticks| <= j < |b.ticks| ==> !b.ticks[j].Editing?
  }

  ghost predicate OnlyEditAt(a: Log, b: Log, at: nat, e: Edit) {
    && |a.ticks| <= at < |b.ticks|
    && (b.ticks[at].Editing? ==> b.ticks[at].edit == e)
    && forall j :: |a.ticks| <= j < |b.ticks| && j != at ==> !b.ticks[j].Editing?
  }

  /** From a to b at most one edit was made, and it was e. */
  ghost function EditsOnce(e: Edit): (Log, Log) -> bool {
    (a: Log, b: Log) => Quiet()(a, b) || (Extends(a, b) && exists at: nat :: OnlyEditAt(a, b, at, e))
  }

  lemma QuietSelf(a: Log)
    ensures Quiet()(a, a)
  {
  }

  lemma QuietStep(g: Log, t: Tick, v: World)
    requires !t.Editing?
    ensures Quiet()(g, Longer(g, t, v))
  {
  }

  lemma EditStep(g: Log, config: Config, e: Edit, v: World)
    ensures EditsOnce(e)(g, Longer(g, Editing(config, e), v))
  {
    var b := Longer(g, Editing(config, e), v);
    var at: nat := |g.ticks|;
    assert Extends(g, b) && OnlyEditAt(g, b, at, e);
  }

  lemma QuietTrans(a: Log, b: Log, c: Log)
    requires Quiet()(a, b) && Quiet()(b, c)
    ensures Quiet()(a, c)
  {
  }

  lemma QuietIsOnce(e: Edit, a: Log, b: Log)
    requires Quiet()(a, b)
    ensures EditsOnce(e)(a, b)
  {
  }

  lemma QuietThenEdit(e: Edit, a: Log, b: Log, c: Log)
    requires Quiet()(a, b) && EditsOnce(e)(b, c)
    ensures EditsOnce(e)(a, c)
  {
    if !Quiet()(b, c) {
      var at: nat :| OnlyEditAt(b, c, at, e);
      assert OnlyEditAt(a, c, at, e);
    } else {
      QuietTrans(a, b, c);
    }
  }

  lemma EditThenQuiet(e: Edit, a: Log, b: Log, c: Log)
    requires EditsOnce(e)(a, b) && Quiet()(b, c)
    ensures EditsOnce(e)(a, c)
  {
    if !Quiet()(a, b) {
      var at: nat :| OnlyEditAt(a, b, at, e);
      assert OnlyEditAt(a, c, at, e);
    } else {
      QuietTrans(a, b, c);
    }
  }

  /** From a to b nothing was edited but what the tick t edits. */
  ghost function Follows(t: Tick): (Log, Log) -> bool {
    (a: Log, b: Log) => if t.Editing? then EditsOnce(t.edit)(a, b) else Quiet()(a, b)
  }

  lemma QuietFollows(t: Tick, a: Log, b: Log)
    requires Quiet()(a, b)
    ensures Follows(t)(a, b)
  {
    if t.Editing? { QuietIsOnce(t.edit, a, b); }
  }

  lemma ThreeFollow(g: Log, t: Tick, v: World, t1: Tick, v1: World, t2: Tick, v2: World)
    requires !t1.Editing? && !t2.Editing?
    ensures Follows(t)(g, Longer(Longer(Longer(g, t, v), t1, v1), t2, v2))
  {
    var a := Longer(g, t, v);
    var b := Longer(a, t1, v1);
    var c := Longer(b, t2, v2);
    QuietStep(a, t1, v1);
    QuietStep(b, t2, v2);
    QuietTrans(a, b, c);
    if t.Editing? {
      EditStep(g, t.config, t.edit, v);
      EditThenQuiet(t.edit, g, a, c);
    } else {
      QuietStep(g, t, v);
      QuietTrans(g, a, c);
    }
  }

  /** From a to b the client stayed and was neither reset nor renamed. */
  ghost function Spared(email: string): (Log, Log) -> bool {
    (a: Log, b: Log) => Extends(a, b) && |b.worlds| == |b.ticks| + 1 &&
      forall j :: |a.ticks| <= j < |b.ticks| ==> SparingStep(email)(b.worlds[j], b.ticks[j], b.worlds[j + 1])
  }

  lemma SparedSelf(email: string, a: Log, w: World)
    requires Leads()(a, w)
    ensures Spared(email)(a, a)
  {
  }

  lemma SparedTrans(email: string, a: Log, b: Log, c: Log)
    requires Spared(email)(a, b) && Spared(email)(b, c)
    ensures Spared(email)(a, c)
  {
    forall j | |a.ticks| <= j < |c.ticks| ensures SparingStep(email)(c.worlds[j], c.ticks[j], c.worlds[j + 1]) {
      if j < |b.ticks| { assert SparingStep(email)(b.worlds[j], b.ticks[j], b.worlds[j + 1]); }
    }
  }

  /** Between two points of a node's run between which a client is spared, its usage grows by exactly what was
      metered for it, and by no more than its counters moved or had pending. */
  lemma SparedRecords(email: string, a: Log, w: World, b: Log, v: World)
    requires Leads()(a, w) && Leads()(b, v) && Spared(email)(a, b) && email in w.state.traffic
    ensures Recorded(w, v, email) && Bounded(w, v, email)
  {
    LeadsAsRun(a, w);
    LeadsAsRun(b, v);
    assert b.worlds[|a.ticks|] == a.worlds[|a.ticks|] == w;
    StretchRecords(email, b.worlds, b.ticks, |a.ticks|, |b.ticks|);
  }

  lemma TickKeepsClients(w: World, t: Tick, v: World)
    requires TickStep()(w, t, v) && !t.Editing?
    ensures v.state.traffic.Keys == w.state.traffic.Keys
  {
  }

  lemma {:induction false} ClientsStay(g: Log, i: nat, k: nat)
    requires Run(TickStep(), g.worlds, g.ticks) && i <= k <= |g.ticks|
    requires forall j :: i <= j < k ==> !g.ticks[j].Editing?
    ensures g.worlds[i].state.traffic.Keys == g.worlds[k].state.traffic.Keys
    decreases k
  {
    if i < k {
      ClientsStay(g, i, k - 1);
      assert TickStep()(g.worlds[k - 1], g.ticks[k - 1], g.worlds[k - 1 + 1]);
      TickKeepsClients(g.worlds[k - 1], g.ticks[k - 1], g.worlds[k]);
    }
  }

  lemma SparesStretch(email: string, g: Log, i: nat, k: nat)
    requires Run(TickStep(), g.worlds, g.ticks) && i <= k <= |g.ticks|
    requires forall j :: i <= j < k ==> !g.ticks[j].Editing?
    requires email in g.worlds[i].state.traffic || email in g.worlds[k].state.traffic
    ensures email in g.worlds[i].state.traffic && email in g.worlds[k].state.traffic
    ensures forall j :: i <= j < k ==> SparingStep(email)(g.worlds[j], g.ticks[j], g.worlds[j + 1])
  {
    ClientsStay(g, i, k);
    forall j | i <= j < k ensures SparingStep(email)(g.worlds[j], g.ticks[j], g.worlds[j + 1]) {
      assert TickStep()(g.worlds[j], g.ticks[j], g.worlds[j + 1]);
      ClientsStay(g, i, j);
      ClientsStay(g, i, j + 1);
      assert email in g.worlds[j].state.traffic.Keys && email in g.worlds[j + 1].state.traffic.Keys;
    }
  }

  /** Where nothing is edited every client is spared. */
  lemma QuietSpares(email: string, a: Log, w: World, b: Log, v: World)
    requires Leads()(a, w) && Leads()(b, v) && Quiet()(a, b) && email in w.state.traffic
    ensures Spared(email)(a, b) && email in v.state.traffic
  {
    LeadsAsRun(a, w);
    LeadsAsRun(b, v);
    assert b.worlds[|a.ticks|] == w;
    SparesStretch(email, b, |a.ticks|, |b.ticks|);
  }

  lemma EditIsSparing(email: string, w: World, t: Tick, v: World)
    requires TickStep()(w, t, v) && email in w.state.traffic && email in v.state.traffic
    requires t.Editing? ==> !SetsUsage(t.edit, email)
    ensures SparingStep(email)(w, t, v)
  {
  }

  lemma EditStretch(email: string, e: Edit, g: Log, i: nat, at: nat)
    requires Run(TickStep(), g.worlds, g.ticks) && i <= at < |g.ticks| && !SetsUsage(e, email)
    requires g.ticks[at].Editing? ==> g.ticks[at].edit == e
    requires forall j :: i <= j < |g.ticks| && j != at ==> !g.ticks[j].Editing?
    requires email in g.worlds[i].state.traffic && email in g.worlds[|g.ticks|].state.traffic
    ensures forall j :: i <= j < |g.ticks| ==> SparingStep(email)(g.worlds[j], g.ticks[j], g.worlds[j + 1])
  {
    SparesStretch(email, g, i, at);
    SparesStretch(email, g, at + 1, |g.ticks|);
    assert TickStep()(g.worlds[at], g.ticks[at], g.worlds[at + 1]);
    EditIsSparing(email, g.worlds[at], g.ticks[at], g.worlds[at + 1]);
  }

  /** One edit spares every client that it leaves and does not reset or rename. */
  lemma EditSpares(email: string, e: Edit, a: Log, w: World, b: Log, v: World)
    requires Leads()(a, w) && Leads()(b, v) && EditsOnce(e)(a, b) && !SetsUsage(e, email)
    requires email in w.state.traffic && email in v.state.traffic
    ensures Spared(email)(a, b)
  {
    LeadsAsRun(a, w);
    LeadsAsRun(b, v);
    if Quiet()(a, b) {
      QuietSpares(email, a, w, b, v);
    } else {
      var at: nat :| OnlyEditAt(a, b, at, e);
      assert b.worlds[|a.ticks|] == w;
      EditStretch(email, e, b, |a.ticks|, at);
    }
  }

  /** Over the whole life of a node each byte a counter moved is metered, waits for the next sample, or was lost
      between the last reading of a process and its end. */
  lemma LifeConserves(g: Log, w: World, k: string)
    requires Leads()(g, w)
    ensures |g.worlds| == |g.ticks| + 1
    ensures Moved(w.meter, k) == Metered(w.books, k) + Pending(w, k) + LossAlong(g.worlds, g.ticks, k)
    ensures Pending(w, k) >= 0 && LossAlong(g.worlds, g.ticks, k) >= 0
  {
    LeadsAsRun(g, w);
    RunConserves(g.worlds, g.ticks, k);
    var first := g.worlds[0];
    assert Balanced(first, w, LossAlong(g.worlds, g.ticks, k), k) && first == NewWorld(first.state);
  }

  // ---------- The ticks of the node's methods ----------

  function AfterSample(w: World, now: int): World {
    World(Sampled(w.state, w.meter.counters, w.books.baseline, now), w.books.(baseline := w.meter.counters), w.meter)
  }

  function AfterStamp(w: World, at: int, running: bool): World { w.(state := Stamped(w.state, at, running)) }

  function AfterObserve(w: World): World { w.(books := Observed(w.books, w.meter.generation)) }

  lemma SampleTick(w: World, now: int)
    requires w.books.generation == w.meter.generation && Sound()(w.state)
    ensures TickStep()(w, Sampling(now), AfterSample(w, now)) && Sound()(AfterSample(w, now).state)
  {
    SampledIsSound(w.state, w.meter.counters, w.books.baseline, now);
  }

  lemma EditTick(w: World, config: Config, e: Edit, n: Snapshot)
    requires Committed(config, w.state, e) == Some(n) && Sound()(w.state)
    ensures TickStep()(w, Editing(config, e), w.(state := n)) && Sound()(n)
  {
    CommittedIsSound(config, w.state, e);
    var v := w.(state := n);
    assert Ticks(w, Editing(config, e), v);
  }

  lemma StampTick(w: World, at: int, running: bool)
    ensures TickStep()(w, Stamping(at, running), AfterStamp(w, at, running))
  {
  }

  lemma ElapseTick(w: World, v: World)
    requires v == w.(meter := v.meter) && Advances(w.meter, v.meter)
    ensures TickStep()(w, Elapse, v)
  {
  }

  lemma ObserveTick(w: World)
    ensures TickStep()(w, Observe, AfterObserve(w))
  {
  }
}
