/** The last-good cache of remote routing sources: one fetch at a time for each source, interleaved with
    readers, the scheduled refresh and the load of persisted rows. Each step is one critical section. */
module RoutingCache {
  import opened Options
  import opened Runs
  import opened Text

  const SECOND := 1_000_000_000
  const TTL := 600 * SECOND
  const RETRY_DELAY := 30 * SECOND
  const HAPP_MAX_BODY := 16 * 1024
  const HAPP_MAX_VALUE := 8 * 1024
  const CLASH_MAX_BODY := 2 * 1024 * 1024

  datatype Kind = Happ | Clash

  datatype Key = Key(kind: Kind, source: string)

  /** A cached value; fetchedAt in whole seconds. */
  datatype Entry = Entry(source: string, content: string, fetchedAt: int, etag: string, modified: string)

  /** What validation accepts and rewrites, and which sources are remote. */
  datatype Rules = Rules(norm: (Kind, string) -> Option<string>, remote: string -> bool)

  datatype Response = Broken | Reply(status: int, location: string, body: string, etag: string, modified: string)

  function Unix(t: int): int { t / SECOND }

  function Lookup<K, V>(m: map<K, V>, k: K): Option<V> { if k in m then Some(m[k]) else None }

  /** The content was accepted by validation, for this source. */
  ghost predicate Validated(rules: Rules, key: Key, e: Entry) {
    && e.source == key.source
    && (exists body :: rules.norm(key.kind, body) == Some(e.content))
    && (key.kind == Happ ==> |e.content| <= HAPP_MAX_VALUE)
  }

  predicate IsRedirect(status: int) { status in {301, 302, 303, 307, 308} }

  function Checked(rules: Rules, key: Key, body: string, etag: string, modified: string, t: int): Option<Entry> {
    var content := rules.norm(key.kind, body);
    if content.None? || (key.kind == Happ && |content.value| > HAPP_MAX_VALUE) then None
    else Some(Entry(key.source, content.value, Unix(t), etag, modified))
  }

  /** What a fetch makes of the response, at time t. */
  function Fetched(rules: Rules, key: Key, previous: Option<Entry>, r: Response, t: int): Option<Entry> {
    if r.Broken? then None
    else if r.status == 304 then
      if previous.None? then None
      else
        var p := previous.value;
        Some(p.(fetchedAt := Unix(t), etag := if Trim(r.etag) != "" then Trim(r.etag) else p.etag,
                modified := if Trim(r.modified) != "" then Trim(r.modified) else p.modified))
    else if key.kind == Happ && IsRedirect(r.status) then Checked(rules, key, Trim(r.location), "", "", t)
    else if r.status != 200 then None
    else if |r.body| > (if key.kind == Clash then CLASH_MAX_BODY else HAPP_MAX_BODY) then None
    else Checked(rules, key, r.body, Trim(r.etag), Trim(r.modified), t)
  }

  /** The persisted row of a kind, if it is still acceptable. */
  function Accepted(rules: Rules, kind: Kind, row: Entry): Option<Entry> {
    if row.source == "" || row.content == "" || row.fetchedAt <= 0 || !rules.remote(row.source) then None
    else
      var content := rules.norm(kind, row.content);
      if content.None? || (kind == Happ && |content.value| > HAPP_MAX_VALUE) then None
      else Some(row.(content := content.value))
  }

  function AcceptedRows(rules: Rules, rows: map<Kind, Entry>): map<Kind, Entry> {
    map kind | kind in rows && Accepted(rules, kind, rows[kind]).Some? :: Accepted(rules, kind, rows[kind]).value
  }

  // ---------- States and steps ----------

  /** A fetch under way: for which key, from which entry, since when. */
  datatype Work = Work(key: Key, previous: Option<Entry>, since: int)

  datatype State = State(
    entries: map<Key, Entry>, inflight: map<Key, nat>, lastAttempt: map<Key, int>,
    next: nat, work: map<nat, Work>, done: seq<nat>,        // fetches: how many, under way, closed in this order
    unsaved: set<(Key, Entry)>, rows: map<Kind, Entry>, loading: Option<map<Kind, Entry>>,
    boot: int, clock: int)

  datatype Step =
    | Elapse(d: nat)
    | Begin(key: Key, now: int)                                // a reader or the scheduled refresh; `now` was read earlier
    | Finish(id: nat, response: Response, t: int, at: int)     // fetched at t; its end was read off the clock as `at`
    | Persist(key: Key, entry: Entry)
    | ReadRows
    | Merge

  datatype Decision = IsFresh | IsBusy | TooSoon | Starts

  function Decide(s: State, key: Key, now: int): Decision {
    if key in s.entries && now - SECOND * s.entries[key].fetchedAt < TTL then IsFresh
    else if key in s.inflight then IsBusy
    else if key in s.lastAttempt && now - s.lastAttempt[key] < RETRY_DELAY then TooSoon
    else Starts
  }

  /** The row loaded for key k, among the rows of some kinds. */
  function RowFor(loaded: map<Kind, Entry>, kinds: set<Kind>, k: Key): Option<Entry> {
    if k.kind in kinds && k.kind in loaded && loaded[k.kind].source == k.source then Some(loaded[k.kind]) else None
  }

  function RowKeys(loaded: map<Kind, Entry>, kinds: set<Kind>): set<Key> {
    set kind | kind in kinds && kind in loaded :: Key(kind, loaded[kind].source)
  }

  /** The cache once the rows of some kinds were merged: a row replaces a cached entry only if it is newer. */
  function MergedOf(entries: map<Key, Entry>, loaded: map<Kind, Entry>, kinds: set<Kind>): map<Key, Entry> {
    map k | k in entries.Keys + RowKeys(loaded, kinds) ::
      var row := RowFor(loaded, kinds, k);
      if k !in entries || (row.Some? && row.value.fetchedAt > entries[k].fetchedAt) then row.value else entries[k]
  }

  function Merged(entries: map<Key, Entry>, loaded: map<Kind, Entry>): map<Key, Entry> { MergedOf(entries, loaded, loaded.Keys) }

  predicate Enabled(s: State, step: Step) {
    match step
    case Elapse(_) => true
    case Begin(_, now) => 0 <= now <= s.clock
    case Finish(id, _, t, at) => id in s.work && s.work[id].since <= t <= at <= s.clock
    case Persist(key, entry) => (key, entry) in s.unsaved
    case ReadRows => true
    case Merge => s.loading.Some?
  }

  function After(rules: Rules, s: State, step: Step): State
    requires Enabled(s, step)
  {
    match step
    case Elapse(d) => s.(clock := s.clock + d)
    case Begin(key, now) =>
      if Decide(s, key, now) != Starts then s
      else s.(inflight := s.inflight[key := s.next], next := s.next + 1,
              work := s.work[s.next := Work(key, Lookup(s.entries, key), s.clock)])
    case Finish(id, response, t, at) =>
      var w := s.work[id];
      var entry := Fetched(rules, w.key, w.previous, response, t);
      s.(lastAttempt := s.lastAttempt[w.key := at],
         entries := if entry.Some? then s.entries[w.key := entry.value] else s.entries,
         inflight := s.inflight - {w.key}, work := s.work - {id}, done := s.done + [id],
         unsaved := if entry.Some? then s.unsaved + {(w.key, entry.value)} else s.unsaved)
    case Persist(key, entry) => s.(rows := s.rows[key.kind := entry], unsaved := s.unsaved - {(key, entry)})
    case ReadRows => s.(loading := Some(AcceptedRows(rules, s.rows)))
    case Merge => s.(entries := Merged(s.entries, s.loading.value), loading := None)
  }

  // ---------- The invariant ----------

  /** Each key has at most one fetch under way, which is the one recorded for it. */
  ghost predicate SingleFlight(s: State) {
    && (forall k :: k in s.inflight ==> s.inflight[k] in s.work && s.work[s.inflight[k]].key == k)
    && (forall id :: id in s.work ==> s.work[id].key in s.inflight && s.inflight[s.work[id].key] == id)
  }

  /** Each fetch ever started is under way or was closed, and closed once. */
  ghost predicate ClosedOnce(s: State) {
    && (forall id: nat :: id < s.next <==> id in s.work || id in s.done)
    && (forall id :: id in s.work ==> id !in s.done)
    && (forall i, k :: 0 <= i < k < |s.done| ==> s.done[i] != s.done[k])
  }

  ghost predicate AllValidated(rules: Rules, s: State) {
    && (forall k :: k in s.entries ==> Validated(rules, k, s.entries[k]))
    && (forall id :: id in s.work && s.work[id].previous.Some? ==> Validated(rules, s.work[id].key, s.work[id].previous.value))
    && (s.loading.Some? ==> forall kind :: kind in s.loading.value ==>
          Validated(rules, Key(kind, s.loading.value[kind].source), s.loading.value[kind]))
  }

  /** Fetches under way began after the last end of a fetch of their key. */
  ghost predicate AttemptsOk(s: State) {
    && (forall k :: k in s.lastAttempt ==> s.lastAttempt[k] <= s.clock)
    && (forall id :: id in s.work ==> s.boot <= s.work[id].since <= s.clock)
    && (forall id :: id in s.work && s.work[id].key in s.lastAttempt ==> s.lastAttempt[s.work[id].key] <= s.work[id].since)
    && s.boot <= s.clock
  }

  ghost predicate Inv(rules: Rules, s: State) {
    SingleFlight(s) && ClosedOnce(s) && AllValidated(rules, s) && AttemptsOk(s)
  }

  /** A new process, with whatever rows earlier ones have left. */
  predicate NewProcess(s: State) {
    && s.entries == map[] && s.inflight == map[] && s.lastAttempt == map[] && s.next == 0 && s.work == map[] && s.done == []
    && s.unsaved == {} && s.loading == None && s.boot == s.clock && s.clock >= 0
  }

  lemma NewProcessInv(rules: Rules, s: State)
    requires NewProcess(s)
    ensures Inv(rules, s)
  {
  }

  lemma FetchedIsValidated(rules: Rules, key: Key, previous: Option<Entry>, r: Response, t: int)
    requires previous.Some? ==> Validated(rules, key, previous.value)
    ensures var e := Fetched(rules, key, previous, r, t); e.Some? ==> Validated(rules, key, e.value) && e.value.fetchedAt == Unix(t)
  {
  }

  lemma AcceptedIsValidated(rules: Rules, kind: Kind, row: Entry)
    ensures var e := Accepted(rules, kind, row);
      e.Some? ==> Validated(rules, Key(kind, row.source), e.value) && e.value.source == row.source && e.value.fetchedAt == row.fetchedAt
  {
  }

  lemma StepKeepsFlights(rules: Rules, s: State, step: Step)
    requires Enabled(s, step) && SingleFlight(s) && ClosedOnce(s)
    ensures SingleFlight(After(rules, s, step))
  {
  }

  lemma StepKeepsClosings(rules: Rules, s: State, step: Step)
    requires Enabled(s, step) && ClosedOnce(s)
    ensures ClosedOnce(After(rules, s, step))
  {
  }

  lemma StepKeepsValidated(rules: Rules, s: State, step: Step)
    requires Enabled(s, step) && AllValidated(rules, s)
    ensures AllValidated(rules, After(rules, s, step))
  {
    match step
    case Finish(id, response, t, _) => FetchedIsValidated(rules, s.work[id].key, s.work[id].previous, response, t);
    case ReadRows => forall kind | kind in s.rows { AcceptedIsValidated(rules, kind, s.rows[kind]); }
    case _ =>
  }

  lemma StepKeepsAttempts(rules: Rules, s: State, step: Step)
    requires Enabled(s, step) && AttemptsOk(s) && SingleFlight(s) && ClosedOnce(s)
    ensures AttemptsOk(After(rules, s, step))
  {
    StepKeepsFlights(rules, s, step);
  }

  /** Every step of readers, refreshes, loads and the clock keeps the invariant. */
  lemma StepKeepsInv(rules: Rules, s: State, step: Step)
    requires Inv(rules, s) && Enabled(s, step)
    ensures Inv(rules, After(rules, s, step))
  {
    StepKeepsFlights(rules, s, step);
    StepKeepsClosings(rules, s, step);
    StepKeepsValidated(rules, s, step);
    StepKeepsAttempts(rules, s, step);
  }

  // ---------- What holds over every run ----------

  ghost predicate Steps(rules: Rules, s: State, step: Step, n: State) { Enabled(s, step) && n == After(rules, s, step) }

  ghost function StepOf(rules: Rules): (State, Step, State) -> bool { (s: State, step: Step, n: State) => Steps(rules, s, step, n) }

  ghost function Good(rules: Rules): State -> bool { (s: State) => Inv(rules, s) }

  /** Closed channels stay closed, in order, and the last end of a fetch only moves on. */
  ghost predicate Later(a: State, b: State) {
    && a.done <= b.done && a.clock <= b.clock
    && forall k :: k in a.lastAttempt ==> k in b.lastAttempt && a.lastAttempt[k] <= b.lastAttempt[k]
  }

  ghost function LaterOf(): (State, State) -> bool { (a: State, b: State) => Later(a, b) }

  lemma StepsKeepGood(rules: Rules)
    ensures forall s, step, n :: Good(rules)(s) && StepOf(rules)(s, step, n) ==> Good(rules)(n)
  {
    forall s, step, n | Good(rules)(s) && StepOf(rules)(s, step, n) ensures Good(rules)(n) { StepKeepsInv(rules, s, step); }
  }

  lemma StepIsLater(rules: Rules, a: State, s: State, step: Step, n: State)
    requires Later(a, s) && Inv(rules, s) && Steps(rules, s, step, n)
    ensures Later(a, n)
  {
    assert s.done <= n.done;
  }

  /** In every interleaving, whatever rows were left behind, each key has at most one fetch under way, each fetch is
      closed at most once and only when it ended, and only validated values are cached. */
  lemma RunKeepsInv(rules: Rules, states: seq<State>, steps: seq<Step>, i: nat)
    requires Run(StepOf(rules), states, steps) && NewProcess(states[0]) && i < |states|
    ensures Inv(rules, states[i])
  {
    NewProcessInv(rules, states[0]);
    StepsKeepGood(rules);
    Always(StepOf(rules), Good(rules), states, steps, i);
    assert Good(rules)(states[i]);
  }

  lemma RunIsLater(rules: Rules, states: seq<State>, steps: seq<Step>, i: nat, k: nat)
    requires Run(StepOf(rules), states, steps) && NewProcess(states[0]) && i <= k < |states|
    ensures Later(states[i], states[k])
  {
    NewProcessInv(rules, states[0]);
    StepsKeepGood(rules);
    forall a, s, step, n | LaterOf()(a, s) && Good(rules)(s) && StepOf(rules)(s, step, n) ensures LaterOf()(a, n) {
      StepIsLater(rules, a, s, step, n);
    }
    Throughout(StepOf(rules), Good(rules), LaterOf(), states, steps, i, k);
    assert LaterOf()(states[i], states[k]);
  }

  /** A new fetch starts exactly when a caller's clock reading finds the cached value 600 s old or none cached, no fetch
      of the key under way and the last end of one 30 s behind; otherwise nothing changes. Times are in nanoseconds, but
      for the whole seconds of a cached value. */
  lemma StartsExactlyWhenStale(rules: Rules, s: State, key: Key, now: int)
    requires Enabled(s, Begin(key, now))
    ensures var n := After(rules, s, Begin(key, now));
      && (n.next > s.next <==>
            && (key in s.entries ==> now - 1_000_000_000 * s.entries[key].fetchedAt >= 600_000_000_000)
            && key !in s.inflight
            && (key in s.lastAttempt ==> now - s.lastAttempt[key] >= 30_000_000_000))
      && (n.next > s.next ==> n.work[s.next] == Work(key, Lookup(s.entries, key), s.clock) && n.inflight[key] == s.next)
      && (n.next == s.next ==> n == s)
  {
  }

  /** In every interleaving two fetches of one key are at least 30 s apart: if one has ended, and a later step starts
      another, the clock has moved on so far since the end was read off it, and the cached value is stale by then. */
  lemma FetchesAreSpaced(rules: Rules, states: seq<State>, steps: seq<Step>, i: nat, j: nat)
    requires Run(StepOf(rules), states, steps) && NewProcess(states[0]) && i < j < |steps|
    requires steps[i].Finish? && steps[i].id in states[i].work
    requires steps[j].Begin? && steps[j].key == states[i].work[steps[i].id].key && states[j + 1].next > states[j].next
    ensures states[j].clock - steps[i].at >= RETRY_DELAY
    ensures steps[j].key in states[j].entries ==> states[j].clock - SECOND * states[j].entries[steps[j].key].fetchedAt >= TTL
  {
    assert StepOf(rules)(states[i], steps[i], states[i + 1]);
    assert StepOf(rules)(states[j], steps[j], states[j + 1]);
    RunIsLater(rules, states, steps, i + 1, j);
    StartsExactlyWhenStale(rules, states[j], steps[j].key, steps[j].now);
  }

  // ---------- What the end of a fetch caches ----------

  /** The end of a fetch that brought no value, or the value e: the channel is closed, the key is free again, and only
      a value changes what is cached and is yet to be persisted. */
  ghost predicate Ends(s: State, id: nat, at: int, e: Option<Entry>, n: State)
    requires id in s.work
  {
    var key := s.work[id].key;
    && n.entries == (if e.Some? then s.entries[key := e.value] else s.entries)
    && n.unsaved == (if e.Some? then s.unsaved + {(key, e.value)} else s.unsaved)
    && n.lastAttempt == s.lastAttempt[key := at] && key !in n.inflight && n.done == s.done + [id]
    && n.clock == s.clock && n.rows == s.rows && n.loading == s.loading && n.next == s.next
  }

  /** A not-modified answer keeps source and content of the value it confirms, with the time of the fetch and the validators
      of the answer, or the old ones where those are blank; without a value to confirm it is a failure. */
  lemma NotModifiedConfirms(rules: Rules, s: State, id: nat, r: Response, t: int, at: int)
    requires Enabled(s, Finish(id, r, t, at)) && r.Reply? && r.status == 304
    ensures var n, previous := After(rules, s, Finish(id, r, t, at)), s.work[id].previous;
      if previous.None? then Ends(s, id, at, None, n)
      else
        var p := previous.value;
        Ends(s, id, at, Some(Entry(p.source, p.content, t / 1_000_000_000,
          if Trim(r.etag) == "" then p.etag else Trim(r.etag), if Trim(r.modified) == "" then p.modified else Trim(r.modified))), n)
  {
  }

  /** A value that a fetch brought is served without a new fetch until it is 600 s old. */
  lemma FetchedStaysFresh(rules: Rules, s: State, id: nat, at: int, e: Entry, n: State, now: int)
    requires id in s.work && Ends(s, id, at, Some(e), n) && Enabled(n, Begin(s.work[id].key, now))
    requires now < 1_000_000_000 * e.fetchedAt + 600_000_000_000
    ensures After(rules, n, Begin(s.work[id].key, now)) == n
  {
  }

  /** A redirect answer to a Happ source brings its target, if that passes validation and the result is at most 8 KiB. */
  lemma HappRedirectBrings(rules: Rules, s: State, id: nat, r: Response, t: int, at: int)
    requires Enabled(s, Finish(id, r, t, at)) && r.Reply? && r.status in {301, 302, 303, 307, 308}
    ensures var n, key := After(rules, s, Finish(id, r, t, at)), s.work[id].key;
      var content := rules.norm(key.kind, Trim(r.location));
      if key.kind == Happ && content.Some? && |content.value| <= 8192
      then Ends(s, id, at, Some(Entry(key.source, content.value, t / 1_000_000_000, "", "")), n)
      else Ends(s, id, at, None, n)
  {
  }

  /** An answer 200 brings its body, if it is at most 16 KiB, or 2 MiB for Clash, and passes validation, with a result of
      at most 8 KiB for Happ. */
  lemma GoodAnswerBrings(rules: Rules, s: State, id: nat, r: Response, t: int, at: int)
    requires Enabled(s, Finish(id, r, t, at)) && r.Reply? && r.status == 200
    ensures var n, key := After(rules, s, Finish(id, r, t, at)), s.work[id].key;
      var content := rules.norm(key.kind, r.body);
      if content.Some? && (if key.kind == Clash then |r.body| <= 2097152 else |r.body| <= 16384 && |content.value| <= 8192)
      then Ends(s, id, at, Some(Entry(key.source, content.value, t / 1_000_000_000, Trim(r.etag), Trim(r.modified))), n)
      else Ends(s, id, at, None, n)
  {
  }

  /** Every other answer, and none at all, brings nothing: what is cached stays. */
  lemma OtherAnswersFail(rules: Rules, s: State, id: nat, r: Response, t: int, at: int)
    requires Enabled(s, Finish(id, r, t, at)) && (r.Reply? ==> r.status !in {200, 304, 301, 302, 303, 307, 308})
    ensures Ends(s, id, at, None, After(rules, s, Finish(id, r, t, at)))
  {
  }

  // ---------- What is loaded from earlier processes ----------

  /** A persisted row is read exactly if it has a source that is remote, a time and a content that still passes validation,
      with a result of at most 8 KiB for Happ; the result is its new content. */
  lemma ReadsExactly(rules: Rules, s: State, kind: Kind)
    ensures var n := After(rules, s, ReadRows);
      && n == s.(loading := n.loading) && n.loading.Some?
      && (kind in n.loading.value <==>
            && kind in s.rows
            && var row := s.rows[kind];
            && row.source != "" && rules.remote(row.source) && row.fetchedAt > 0 && row.content != ""
            && rules.norm(kind, row.content).Some? && (kind == Happ ==> |rules.norm(kind, row.content).value| <= 8192))
      && (kind in n.loading.value ==>
            n.loading.value[kind] == s.rows[kind].(content := rules.norm(kind, s.rows[kind].content).value))
  {
  }

  /** A row that was read is cached if nothing is cached for its source or something older; all else stays. */
  lemma MergesExactly(rules: Rules, s: State, key: Key)
    requires Enabled(s, Merge)
    ensures var n, rows := After(rules, s, Merge), s.loading.value;
      && n == s.(entries := n.entries, loading := None)
      && if key.kind in rows && rows[key.kind].source == key.source
            && (key in s.entries ==> rows[key.kind].fetchedAt > s.entries[key].fetchedAt)
         then key in n.entries && n.entries[key] == rows[key.kind]
         else (key in n.entries <==> key in s.entries) && (key in s.entries ==> n.entries[key] == s.entries[key])
  {
  }

  // ---------- Fetch times ----------

  /** Cached values are never dropped, and none gives way to an older one. */
  ghost predicate Forward(a: State, b: State) {
    forall k :: k in a.entries ==> k in b.entries && a.entries[k].fetchedAt <= b.entries[k].fetchedAt
  }

  predicate Passes(rules: Rules, kind: Kind, text: string) {
    var content := rules.norm(kind, text);
    content.Some? && (kind == Happ ==> |content.value| <= HAPP_MAX_VALUE)
  }

  function BodyLimit(kind: Kind): int { if kind == Clash then CLASH_MAX_BODY else HAPP_MAX_BODY }

  /** Some answer of a server can pass validation, as a body or, for the kind that takes one, as a redirect target. */
  ghost predicate Fetchable(rules: Rules, kind: Kind) {
    exists text :: Passes(rules, kind, text) && (|text| <= BodyLimit(kind) || (kind == Happ && Trimmed(text)))
  }

  lemma FetchedIsFetchable(rules: Rules, key: Key, previous: Option<Entry>, r: Response, t: int)
    requires Fetched(rules, key, previous, r, t).Some? && previous.None?
    ensures Fetchable(rules, key.kind)
  {
    if key.kind == Happ && IsRedirect(r.status) {
      TrimIsTrimmed(r.location);
      assert Passes(rules, Happ, Trim(r.location));
    } else {
      assert Passes(rules, key.kind, r.body);
    }
  }

  lemma FetchableIsFetched(rules: Rules, key: Key, t: int) returns (r: Response)
    requires Fetchable(rules, key.kind)
    ensures Fetched(rules, key, None, r, t).Some? && Fetched(rules, key, None, r, t).value.fetchedAt == Unix(t)
  {
    var text :| Passes(rules, key.kind, text) && (|text| <= BodyLimit(key.kind) || (key.kind == Happ && Trimmed(text)));
    if |text| <= BodyLimit(key.kind) {
      r := Reply(200, "", text, "", "");
    } else {
      TrimmedStays(text);
      r := Reply(302, text, "", "", "");
    }
  }

  lemma UnixGrows(a: int, b: int)
    requires a <= b
    ensures Unix(a) <= Unix(b)
  {
  }

  /** Entry e for k is from before this process started, or no newer than what is cached. */
  predicate Known(s: State, k: Key, e: Entry) {
    e.fetchedAt <= Unix(s.boot) || (k in s.entries && e.fetchedAt <= s.entries[k].fetchedAt)
  }

  /** The key is not cached, and never will be but from its row. */
  ghost predicate OnlyFromRow(rules: Rules, s: State, k: Key) { k !in s.entries && !Fetchable(rules, k.kind) }

  /** A fetch that can succeed will not find anything newer than its own start. */
  ghost predicate FetchesAhead(rules: Rules, s: State) {
    forall id :: id in s.work ==>
      var w := s.work[id];
      && (w.previous.Some? ==> w.key in s.entries)
      && (w.key in s.entries && (w.previous.Some? || Fetchable(rules, w.key.kind)) ==> s.entries[w.key].fetchedAt <= Unix(w.since))
  }

  ghost predicate RowsKnown(rules: Rules, s: State) {
    && (forall k, e :: (k, e) in s.unsaved ==> k in s.entries && e.fetchedAt <= s.entries[k].fetchedAt && e.source == k.source)
    && (forall kind :: kind in s.rows && Accepted(rules, kind, s.rows[kind]).Some? ==>
          var k := Key(kind, s.rows[kind].source); Known(s, k, s.rows[kind]) || OnlyFromRow(rules, s, k))
  }

  ghost predicate LoadingKnown(rules: Rules, s: State) {
    s.loading.Some? ==> forall kind :: kind in s.loading.value ==>
      var e := s.loading.value[kind];
      Known(s, Key(kind, e.source), e) || OnlyFromRow(rules, s, Key(kind, e.source))
  }

  /** Of a kind that no fetch can supply, only the row's own source is ever cached, and first from the row itself. */
  ghost predicate OneSource(rules: Rules, s: State) {
    && (forall k :: k in s.entries && !Fetchable(rules, k.kind) ==> k.kind in s.rows && s.rows[k.kind].source == k.source)
    && (s.loading.Some? ==> forall kind :: kind in s.loading.value && !Fetchable(rules, kind) ==>
          && kind in s.rows && s.rows[kind].source == s.loading.value[kind].source
          && (Key(kind, s.rows[kind].source) !in s.entries ==> s.rows[kind].fetchedAt == s.loading.value[kind].fetchedAt))
  }

  ghost predicate TimesOk(rules: Rules, s: State) {
    FetchesAhead(rules, s) && RowsKnown(rules, s) && LoadingKnown(rules, s) && OneSource(rules, s)
  }

  /** An acceptable row of a kind that can be fetched is ahead of the clock. */
  ghost predicate RowAhead(rules: Rules, s: State) {
    exists kind :: kind in s.rows && Accepted(rules, kind, s.rows[kind]).Some? && s.rows[kind].fetchedAt > Unix(s.clock)
      && Fetchable(rules, kind)
  }

  lemma NewProcessTimes(rules: Rules, s: State)
    requires NewProcess(s) && !RowAhead(rules, s)
    ensures TimesOk(rules, s)
  {
  }

  /** Where a cached value comes from: it was there, it was loaded, or its fetch has just ended. */
  lemma NewEntry(rules: Rules, s: State, step: Step, k: Key)
    requires Enabled(s, step) && k in After(rules, s, step).entries
    ensures var e := After(rules, s, step).entries[k];
      || (k in s.entries && e == s.entries[k])
      || (step.Merge? && k.kind in s.loading.value && e == s.loading.value[k.kind] && e.source == k.source
          && (k in s.entries ==> e.fetchedAt > s.entries[k].fetchedAt))
      || (step.Finish? && k == s.work[step.id].key
          && Some(e) == Fetched(rules, k, s.work[step.id].previous, step.response, step.t))
  {
  }

  /** The end of a fetch brings a value no older than the cached one. */
  lemma FinishIsForward(rules: Rules, s: State, step: Step)
    requires Enabled(s, step) && step.Finish? && Inv(rules, s) && FetchesAhead(rules, s)
    ensures var w := s.work[step.id];
      var e := Fetched(rules, w.key, w.previous, step.response, step.t);
      e.Some? && w.key in s.entries ==> s.entries[w.key].fetchedAt <= e.value.fetchedAt
  {
    var w := s.work[step.id];
    FetchedIsValidated(rules, w.key, w.previous, step.response, step.t);
    UnixGrows(w.since, step.t);
    if w.previous.None? && Fetched(rules, w.key, w.previous, step.response, step.t).Some? {
      FetchedIsFetchable(rules, w.key, w.previous, step.response, step.t);
    }
  }

  lemma StepIsForward(rules: Rules, s: State, step: Step)
    requires Enabled(s, step) && Inv(rules, s) && FetchesAhead(rules, s)
    ensures Forward(s, After(rules, s, step))
  {
    if step.Finish? { FinishIsForward(rules, s, step); }
  }

  lemma StepKeepsSource(rules: Rules, s: State, step: Step)
    requires Enabled(s, step) && Inv(rules, s) && TimesOk(rules, s)
    ensures OneSource(rules, After(rules, s, step))
  {
    var n := After(rules, s, step);
    forall k | k in n.entries && !Fetchable(rules, k.kind) ensures k.kind in n.rows && n.rows[k.kind].source == k.source {
      NewEntry(rules, s, step, k);
      if step.Finish? && k == s.work[step.id].key && s.work[step.id].previous.None? && k !in s.entries {
        FetchedIsFetchable(rules, k, None, step.response, step.t);
      }
    }
  }

  lemma StepKeepsFetches(rules: Rules, s: State, step: Step, id: nat)
    requires Enabled(s, step) && Inv(rules, s) && TimesOk(rules, s) && id in After(rules, s, step).work
    ensures var n := After(rules, s, step);
      var w := n.work[id];
      && (w.previous.Some? ==> w.key in n.entries)
      && (w.key in n.entries && (w.previous.Some? || Fetchable(rules, w.key.kind)) ==> n.entries[w.key].fetchedAt <= Unix(w.since))
  {
    var n := After(rules, s, step);
    var w := n.work[id];
    if id in s.work {
      assert s.work[id] == w;
      UnixGrows(s.boot, w.since);
      if w.key in n.entries { NewEntry(rules, s, step, w.key); }
    } else {
      assert step.Begin? && w == Work(step.key, Lookup(s.entries, step.key), s.clock);
      if w.key in s.entries { StaleIsPast(s.entries[w.key].fetchedAt, step.now, s.clock); }
    }
  }

  lemma StaleIsPast(fetchedAt: int, now: int, clock: int)
    requires now - SECOND * fetchedAt >= TTL && now <= clock
    ensures fetchedAt <= Unix(clock)
  {
  }

  lemma StepKeepsRows(rules: Rules, s: State, step: Step)
    requires Enabled(s, step) && Inv(rules, s) && TimesOk(rules, s)
    ensures RowsKnown(rules, After(rules, s, step))
  {
    var n := After(rules, s, step);
    StepIsForward(rules, s, step);
    if step.Finish? {
      var w := s.work[step.id];
      FetchedIsValidated(rules, w.key, w.previous, step.response, step.t);
    }
    forall kind | kind in n.rows && Accepted(rules, kind, n.rows[kind]).Some?
      ensures var k := Key(kind, n.rows[kind].source); Known(n, k, n.rows[kind]) || OnlyFromRow(rules, n, k)
    {
      RowStaysKnown(rules, s, step, kind);
    }
  }

  lemma KnownStays(s: State, n: State, k: Key, e: Entry)
    requires Known(s, k, e) && Forward(s, n) && n.boot == s.boot
    ensures Known(n, k, e)
  {
  }

  /** A key cached only from its row, once cached, is no older than the row. */
  lemma RowArrives(rules: Rules, s: State, step: Step, k: Key)
    requires Enabled(s, step) && Inv(rules, s) && TimesOk(rules, s)
    requires OnlyFromRow(rules, s, k) && k in After(rules, s, step).entries
    ensures step.Merge? && k.kind in s.rows && s.rows[k.kind].source == k.source
    ensures After(rules, s, step).entries[k].fetchedAt == s.rows[k.kind].fetchedAt
  {
    NewEntry(rules, s, step, k);
    if step.Finish? { FetchedIsFetchable(rules, k, s.work[step.id].previous, step.response, step.t); }
  }

  lemma RowStaysKnown(rules: Rules, s: State, step: Step, kind: Kind)
    requires Enabled(s, step) && Inv(rules, s) && TimesOk(rules, s) && Forward(s, After(rules, s, step))
    requires kind in After(rules, s, step).rows && Accepted(rules, kind, After(rules, s, step).rows[kind]).Some?
    ensures var n := After(rules, s, step);
      var k := Key(kind, n.rows[kind].source); Known(n, k, n.rows[kind]) || OnlyFromRow(rules, n, k)
  {
    var n := After(rules, s, step);
    if step.Persist? && kind == step.key.kind {
      assert (step.key, step.entry) in s.unsaved && n.rows[kind] == step.entry && step.key == Key(kind, step.entry.source);
    } else {
      assert kind in s.rows && n.rows[kind] == s.rows[kind];
      OldRowStaysKnown(rules, s, step, kind, s.rows[kind], n);
    }
  }

  lemma OldRowStaysKnown(rules: Rules, s: State, step: Step, kind: Kind, row: Entry, n: State)
    requires Enabled(s, step) && Inv(rules, s) && TimesOk(rules, s) && n == After(rules, s, step) && Forward(s, n)
    requires kind in s.rows && row == s.rows[kind] && Accepted(rules, kind, row).Some? && n.boot == s.boot
    ensures Known(n, Key(kind, row.source), row) || OnlyFromRow(rules, n, Key(kind, row.source))
  {
    var k := Key(kind, row.source);
    if Known(s, k, row) {
      KnownStays(s, n, k, row);
    } else if k in n.entries {
      RowArrives(rules, s, step, k);
    }
  }

  lemma StepKeepsLoading(rules: Rules, s: State, step: Step)
    requires Enabled(s, step) && Inv(rules, s) && TimesOk(rules, s)
    ensures LoadingKnown(rules, After(rules, s, step))
  {
    var n := After(rules, s, step);
    StepIsForward(rules, s, step);
    if n.loading.Some? {
      forall kind | kind in n.loading.value
        ensures var e := n.loading.value[kind];
          Known(n, Key(kind, e.source), e) || OnlyFromRow(rules, n, Key(kind, e.source))
      {
        LoadingStaysKnown(rules, s, step, kind);
      }
    }
  }

  lemma LoadingStaysKnown(rules: Rules, s: State, step: Step, kind: Kind)
    requires Enabled(s, step) && Inv(rules, s) && TimesOk(rules, s) && Forward(s, After(rules, s, step))
    requires After(rules, s, step).loading.Some? && kind in After(rules, s, step).loading.value
    ensures var n := After(rules, s, step);
      var e := n.loading.value[kind];
      Known(n, Key(kind, e.source), e) || OnlyFromRow(rules, n, Key(kind, e.source))
  {
    var n := After(rules, s, step);
    var e := n.loading.value[kind];
    var k := Key(kind, e.source);
    if step.ReadRows? {
      AcceptedIsValidated(rules, kind, s.rows[kind]);
    } else {
      assert e == s.loading.value[kind];
      if Known(s, k, e) {
        KnownStays(s, n, k, e);
      } else if k in n.entries {
        RowArrives(rules, s, step, k);
      }
    }
  }

  lemma StepKeepsTimes(rules: Rules, s: State, step: Step)
    requires Enabled(s, step) && Inv(rules, s) && TimesOk(rules, s)
    ensures TimesOk(rules, After(rules, s, step))
  {
    forall id | id in After(rules, s, step).work { StepKeepsFetches(rules, s, step, id); }
    StepKeepsRows(rules, s, step);
    StepKeepsLoading(rules, s, step);
    StepKeepsSource(rules, s, step);
  }

  ghost predicate Timely(rules: Rules, s: State) { Inv(rules, s) && TimesOk(rules, s) }

  ghost function TimelyOf(rules: Rules): State -> bool { (s: State) => Timely(rules, s) }

  ghost function ForwardOf(): (State, State) -> bool { (a: State, b: State) => Forward(a, b) }

  lemma StepsKeepTimely(rules: Rules)
    ensures forall s, step, n :: TimelyOf(rules)(s) && StepOf(rules)(s, step, n) ==> TimelyOf(rules)(n)
    ensures forall a, s, step, n ::
      ForwardOf()(a, s) && TimelyOf(rules)(s) && StepOf(rules)(s, step, n) ==> ForwardOf()(a, n)
  {
    forall s, step, n | TimelyOf(rules)(s) && StepOf(rules)(s, step, n) ensures TimelyOf(rules)(n) && Forward(s, n) {
      StepKeepsInv(rules, s, step);
      StepKeepsTimes(rules, s, step);
      StepIsForward(rules, s, step);
    }
  }

  lemma RunIsForward(rules: Rules, states: seq<State>, steps: seq<Step>, i: nat, k: nat)
    requires Run(StepOf(rules), states, steps) && NewProcess(states[0]) && !RowAhead(rules, states[0]) && i <= k < |states|
    ensures Forward(states[i], states[k])
  {
    NewProcessInv(rules, states[0]);
    NewProcessTimes(rules, states[0]);
    StepsKeepTimely(rules);
    assert TimelyOf(rules)(states[0]);
    Throughout(StepOf(rules), TimelyOf(rules), ForwardOf(), states, steps, i, k);
    assert ForwardOf()(states[i], states[k]);
  }

  lemma FetchStarts(rules: Rules, s0: State, key: Key) returns (s1: State)
    requires NewProcess(s0)
    ensures Steps(rules, s0, Begin(key, s0.clock), s1)
    ensures s1 == s0.(inflight := map[key := 0], next := 1, work := map[0 := Work(key, None, s0.clock)])
  {
    s1 := After(rules, s0, Begin(key, s0.clock));
  }

  lemma RowIsLoaded(rules: Rules, s1: State, kind: Kind) returns (s2: State, s3: State)
    requires s1.entries == map[] && kind in s1.rows && Accepted(rules, kind, s1.rows[kind]).Some?
    ensures Steps(rules, s1, ReadRows, s2) && Steps(rules, s2, Merge, s3)
    ensures s3.work == s1.work && s3.clock == s1.clock
    ensures var key := Key(kind, s1.rows[kind].source); key in s3.entries && s3.entries[key].fetchedAt == s1.rows[kind].fetchedAt
  {
    AcceptedIsValidated(rules, kind, s1.rows[kind]);
    s2 := After(rules, s1, ReadRows);
    assert kind in s2.loading.value && s2.loading.value[kind] == Accepted(rules, kind, s1.rows[kind]).value;
    s3 := After(rules, s2, Merge);
    var key := Key(kind, s1.rows[kind].source);
    RowKeyIn(s2.loading.value, s2.loading.value.Keys, kind);
  }

  lemma RowKeyIn(loaded: map<Kind, Entry>, kinds: set<Kind>, kind: Kind)
    requires kind in kinds && kind in loaded
    ensures Key(kind, loaded[kind].source) in RowKeys(loaded, kinds)
  {
  }

  lemma FetchEnds(rules: Rules, s3: State, key: Key, r: Response, clock: int) returns (s4: State)
    requires s3.work == map[0 := Work(key, None, clock)] && s3.clock == clock && key in s3.entries
    requires Fetched(rules, key, None, r, clock).Some? && Fetched(rules, key, None, r, clock).value.fetchedAt < s3.entries[key].fetchedAt
    ensures Steps(rules, s3, Finish(0, r, clock, clock), s4) && !Forward(s3, s4)
  {
    s4 := After(rules, s3, Finish(0, r, clock, clock));
    assert s4.entries[key].fetchedAt < s3.entries[key].fetchedAt;
  }

  /** A row ahead of the clock makes a run go back: a fetch starts, the row is loaded, and the fetch ends. */
  lemma RowAheadGoesBack(rules: Rules, s0: State, kind: Kind) returns (states: seq<State>, steps: seq<Step>)
    requires NewProcess(s0) && kind in s0.rows && Accepted(rules, kind, s0.rows[kind]).Some?
    requires s0.rows[kind].fetchedAt > Unix(s0.clock) && Fetchable(rules, kind)
    ensures Run(StepOf(rules), states, steps) && |steps| == 4 && states[0] == s0 && !Forward(states[3], states[4])
  {
    var key := Key(kind, s0.rows[kind].source);
    var r := FetchableIsFetched(rules, key, s0.clock);
    var s1 := FetchStarts(rules, s0, key);
    var s2, s3 := RowIsLoaded(rules, s1, kind);
    var s4 := FetchEnds(rules, s3, key, r, s0.clock);
    states := [s0, s1, s2, s3, s4];
    steps := [Begin(key, s0.clock), ReadRows, Merge, Finish(0, r, s0.clock, s0.clock)];
    forall i | 0 <= i < 4 ensures StepOf(rules)(states[i], steps[i], states[i + 1]) {
      assert Steps(rules, states[i], steps[i], states[i + 1]);
    }
  }

  /** Over all runs of a new process no cached value is dropped or gives way to an older one if and only if no
      acceptable row of a kind that can be fetched is ahead of the clock at the start. */
  lemma ForwardUnlessRowAhead(rules: Rules, s0: State)
    requires NewProcess(s0)
    ensures !RowAhead(rules, s0) <==>
      forall states: seq<State>, steps: seq<Step>, i: nat, k: nat ::
        Run(StepOf(rules), states, steps) && states[0] == s0 && i <= k < |states| ==> Forward(states[i], states[k])
  {
    if !RowAhead(rules, s0) {
      forall states: seq<State>, steps: seq<Step>, i: nat, k: nat | Run(StepOf(rules), states, steps) && states[0] == s0 && i <= k < |states|
        ensures Forward(states[i], states[k])
      {
        RunIsForward(rules, states, steps, i, k);
      }
    } else {
      var kind :| kind in s0.rows && Accepted(rules, kind, s0.rows[kind]).Some? && s0.rows[kind].fetchedAt > Unix(s0.clock)
        && Fetchable(rules, kind);
      var states, steps := RowAheadGoesBack(rules, s0, kind);
      assert !Forward(states[3], states[4]);
    }
  }

  // ---------- The resolver ----------

  class Resolver {
    const rules: Rules
    var entries: map<Key, Entry>
    var inflight: map<Key, nat>
    var lastAttempt: map<Key, int>
    var next: nat
    ghost var work: map<nat, Work>
    ghost var done: seq<nat>
    ghost var unsaved: set<(Key, Entry)>
    ghost var rows: map<Kind, Entry>
    ghost var loading: Option<map<Kind, Entry>>
    ghost const boot: int
    ghost var clock: int

    ghost function View(): State
      reads this
    {
      State(entries, inflight, lastAttempt, next, work, done, unsaved, rows, loading, boot, clock)
    }

    constructor (rules: Rules, rows: map<Kind, Entry>, clock: int)
      requires clock >= 0
      ensures this.rules == rules && NewProcess(View()) && Inv(rules, View()) && View().rows == rows && View().clock == clock
    {
      this.rules, this.rows, this.clock, boot := rules, rows, clock, clock;
      entries, inflight, lastAttempt, next := map[], map[], map[], 0;
      work, done, unsaved, loading := map[], [], {}, None;
    }

    /** Serves a reader: whatever is cached, and perhaps a new fetch to be carried out in the background. */
    method Resolve(key: Key, now: int) returns (answer: Option<Entry>, started: Option<nat>)
      requires Inv(rules, View()) && 0 <= now <= clock
      modifies this`inflight, this`next, this`work
      ensures View() == After(rules, old(View()), Begin(key, now))
      ensures answer == Lookup(old(entries), key) && (answer.Some? ==> Validated(rules, key, answer.value))
      ensures started == if Decide(old(View()), key, now) == Starts then Some(old(next)) else None
    {
      answer := Lookup(entries, key);
      started := None;
      if answer.Some? && now - SECOND * answer.value.fetchedAt < TTL { return; }
      if key in inflight { return; }
      if key in lastAttempt && now - lastAttempt[key] < RETRY_DELAY { return; }
      inflight := inflight[key := next];
      work := work[next := Work(key, answer, clock)];
      started := Some(next);
      next := next + 1;
    }

    /** The end of a fetch: its outcome is recorded, its value cached if there is one, and its waiters released. */
    method Refreshed(id: nat, key: Key, previous: Option<Entry>, response: Response, t: int, at: int) returns (entry: Option<Entry>)
      requires Inv(rules, View()) && Enabled(View(), Finish(id, response, t, at))
      requires work[id].key == key && work[id].previous == previous
      modifies this`entries, this`inflight, this`lastAttempt, this`work, this`done, this`unsaved
      ensures View() == After(rules, old(View()), Finish(id, response, t, at))
      ensures entry == Fetched(rules, key, previous, response, t)
      ensures id !in old(done) && done == old(done) + [id] && key !in inflight
    {
      entry := Fetched(rules, key, previous, response, t);
      lastAttempt := lastAttempt[key := at];
      if entry.Some? {
        entries := entries[key := entry.value];
        unsaved := unsaved + {(key, entry.value)};
      }
      inflight := inflight - {key};
      work := work - {id};
      done := done + [id];
    }

    /** Reads and checks the persisted rows. */
    method ReadPersisted(stored: map<Kind, Entry>) returns (loaded: map<Kind, Entry>)
      requires stored == rows
      modifies this`loading
      ensures View() == After(rules, old(View()), ReadRows) && loading == Some(loaded)
    {
      loaded := map[];
      var happ := if Happ in stored then Accepted(rules, Happ, stored[Happ]) else None;
      if happ.Some? { loaded := loaded[Happ := happ.value]; }
      var clash := if Clash in stored then Accepted(rules, Clash, stored[Clash]) else None;
      if clash.Some? { loaded := loaded[Clash := clash.value]; }
      assert loaded == AcceptedRows(rules, rows);
      loading := Some(loaded);
    }

    /** Merges the rows read into the cache; they replace only older values. */
    method LoadPersisted(loaded: map<Kind, Entry>)
      requires loading == Some(loaded)
      modifies this`entries, this`loading
      ensures View() == After(rules, old(View()), Merge)
    {
      var todo := loaded.Keys;
      ghost var before := entries;
      while todo != {}
        invariant todo <= loaded.Keys
        invariant entries == MergedOf(before, loaded, loaded.Keys - todo)
        decreases todo
      {
        var kind :| kind in todo;
        var entry := loaded[kind];
        var key := Key(kind, entry.source);
        MergeOne(before, loaded, loaded.Keys - todo, kind);
        assert loaded.Keys - (todo - {kind}) == loaded.Keys - todo + {kind};
        if key !in entries || entry.fetchedAt > entries[key].fetchedAt { entries := entries[key := entry]; }
        todo := todo - {kind};
      }
      loading := None;
      assert loaded.Keys - todo == loaded.Keys;
    }
  }

  lemma MergeOne(before: map<Key, Entry>, loaded: map<Kind, Entry>, kinds: set<Kind>, kind: Kind)
    requires kind in loaded && kind !in kinds
    ensures var entries, entry := MergedOf(before, loaded, kinds), loaded[kind];
      var key := Key(kind, entry.source);
      MergedOf(before, loaded, kinds + {kind}) ==
        if key !in entries || entry.fetchedAt > entries[key].fetchedAt then entries[key := entry] else entries
  {
    var key := Key(kind, loaded[kind].source);
    var more := MergedOf(before, loaded, kinds + {kind});
    assert RowKeys(loaded, kinds + {kind}) == RowKeys(loaded, kinds) + {key};
    forall k | k in more && k != key ensures RowFor(loaded, kinds + {kind}, k) == RowFor(loaded, kinds, k) {}
  }
}
