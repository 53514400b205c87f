/** The leaf node: one truth in memory, in the state file and in the running process. */
module LeafNode {
  import opened Options
  import opened NodeTypes
  import opened Engine
  import opened Sync
  import opened Edits
  import opened Sampling
  import opened SampleSteps
  import opened Histories
  import opened Invariant
  import opened Metering
  import opened Runs
  import opened Store
  import opened NodeStore
  import opened NodeState
  import opened XrayCore

  /** Everything outside the node's control in one sample. The counters have grown by `more`; None if the query fails. */
  datatype SampleFate = SampleFate(more: Option<Counters>, now: int, tableAt: int, apply: ApplyFate, save: SaveFate)

  /** Everything outside the node's control in one transaction. */
  datatype EditFate = EditFate(
    exited: bool, sample: SampleFate, oldTableAt: int, newTableAt: int, apply: ApplyFate, save: SaveFate, rollback: ApplyFate)

  ghost predicate Fair(f: SampleFate) { f.now >= 0 && Possible(f.save) && (f.more.Some? ==> NonNegative(f.more.value)) }

  ghost predicate FairEdit(f: EditFate) { Fair(f.sample) && Possible(f.save) }

  datatype EditResult =
    | Refused      // the node is halted
    | Unsampled    // the leading sample failed
    | Rejected     // the edit, the checks or the sync refused
    | Unchanged    // the edit changes nothing
    | NotApplied   // the engine did not take the new table
    | RolledBack   // the state was not written
    | Doubtful     // the state may or may not have been written: the node halts
    | Done

  /** All that can be seen of a node at one moment: state and accounts, engine, file. */
  datatype Moment = Moment(world: World, core: CoreState, file: Option<Snapshot>, halted: bool)

  /** The table is one that state s asks for, at some time. */
  ghost predicate AsksFor(s: Snapshot, table: seq<Live>) { exists now :: table == Desired(s, now) }

  /** The engine is stopped, or runs again the table recorded before. */
  ghost predicate OldOrStopped(before: CoreState, after: CoreState) {
    after.proc.None? || (after.proc == Some(before.live) && after.live == before.live)
  }

  /** What a sample reads. */
  function Reading(w: World, f: SampleFate): Counters {
    if f.more.Some? then Plus(w.meter.counters, f.more.value) else w.meter.counters
  }

  /** What a sample makes of a state before it is saved. */
  function Drawn(w: World, f: SampleFate): Snapshot {
    Sampled(w.state, Reading(w, f), Observed(w.books, w.meter.generation).baseline, f.now)
  }

  /** A stopped engine is to serve the table: launched on it, fallen back to the recorded one, or neither. */
  ghost predicate Relaunched(table: seq<Live>, fate: ApplyFate, before: CoreState, ok: bool, after: CoreState) {
    && (ok <==> fate.start == Ready)
    && after.proc == (if ok then Some(table) else if fate.fallback == Ready then Some(before.live) else None)
    && (ok ==> after.generation > before.generation)
  }

  /** How a state reaches engine and file: the engine takes its table or not, and if it does the save decides the rest. */
  ghost predicate Reaches(table: seq<Live>, saved: Snapshot, apply: ApplyFate, save: SaveFate, before: CoreState, prior: Option<Snapshot>,
                          applied: bool, r: Outcome, after: CoreState, file: Option<Snapshot>) {
    && (Works(apply) ==> applied)
    && (if applied then after.proc == Some(table) else OldOrStopped(before, after))
    && r == (if applied then SaveVerdict(save, true) else Failed)
    && file in {Some(saved), prior}
  }

  /** A recovered engine serves a table the state asks for exactly if the state's own table was launched or the
      recorded table, to which the engine falls back, is such a table. */
  lemma RecoveryServes(s: Snapshot, tableAt: int, fate: ApplyFate, before: CoreState, ok: bool, after: CoreState)
    requires Relaunched(Desired(s, tableAt), fate, before, ok, after) && after.proc.Some?
    ensures AsksFor(s, after.proc.value) <==> fate.start == Ready || AsksFor(s, before.live)
  {
  }

  /** How a state `drawn` by a sample of state s enters engine, file and memory, on a node that is not halted. If
      nothing changed nothing is touched; with a working engine only the save decides. */
  ghost predicate Enters(f: SampleFate, drawn: Snapshot, s: Snapshot, before: CoreState,
                         ok: bool, v: Snapshot, after: CoreState, file: Option<Snapshot>, halts: bool) {
    var saved := Stamped(drawn, f.save.at, drawn.running);
    && (drawn == s ==> ok && v == s && after == before && !halts)
    && (ok && drawn != s ==> v == saved && after.proc == Some(Desired(v, f.tableAt)) && SaveVerdict(f.save, true) == Stored)
    && (ok ==> !halts)
    && (!ok ==> v == s)
    && (!ok && !halts ==> OldOrStopped(before, after))
    && (halts ==> after.proc.None? && file in {Some(s), Some(saved)})
    && (!halts ==> file == Some(v))
    && (drawn != s && Works(f.apply) ==> (ok <==> SaveVerdict(f.save, true) == Stored) && (halts <==> !ok))
  }

  /** How a sample of a node that is not halted may end: without a reading nothing happens. */
  ghost predicate Samples(f: SampleFate, a: Moment, ok: bool, b: Moment) {
    if a.core.proc.None? || f.more.None? then
      !ok && b.world.state == a.world.state && b.core == a.core && b.file == a.file && !b.halted
    else
      && Enters(f, Drawn(a.world, f), a.world.state, a.core, ok, b.world.state, b.core, b.file, b.halted)
      && (ok ==> b.world.books.baseline == if b.core.generation == a.core.generation then Reading(a.world, f) else map[])
  }

  /** The sample that leads an edit or a restart: taken if the process is running. */
  ghost predicate Leading(exited: bool, f: SampleFate, a: Moment, ok: bool, b: Moment) {
    if a.core.proc.Some? && !exited then Samples(f, a, ok, b) else ok && b == a.(core := Halt(a.core))
  }

  /** How an edit of state s that asks for the state `wanted` may end on a node that is not halted. With a working
      engine only the save decides. */
  ghost predicate Concludes(f: EditFate, s: Snapshot, before: CoreState, wanted: Option<Snapshot>,
                            r: EditResult, v: Snapshot, after: CoreState, file: Option<Snapshot>, halts: bool) {
    && r !in {Refused, Unsampled} && (r == Rejected <==> wanted.None?) && (r == Unchanged <==> wanted == Some(s))
    && (r in {Rejected, Unchanged} ==> after == before)
    && (r == NotApplied ==> OldOrStopped(before, after) && !Works(f.apply))
    && (r in {Done, Doubtful, RolledBack} ==>
          SaveVerdict(f.save, true) == match r case Done => Stored case Doubtful => Uncertain case _ => Failed)
    && (r == Done ==> v == Stamped(wanted.value, f.save.at, wanted.value.running))
    && (r == Done ==> after.proc == Some(Desired(v, f.newTableAt)))
    && (r == RolledBack ==> after.proc.None? || after.proc == Some(Desired(s, f.oldTableAt)))
    && (r == RolledBack && Works(f.rollback) ==> after.proc.Some?)
    && (r != Done ==> v == s)
    && (halts <==> r == Doubtful)
    && (halts ==> after.proc.None? && file in {Some(s), Some(Stamped(wanted.value, f.save.at, wanted.value.running))})
    && (!halts ==> file == Some(v))
  }

  // ---------- Any sequence of calls ----------

  /** A call of a node that is up. */
  datatype Call =
    | Transact(edit: Edit, fate: EditFate)
    | Turn(exited: bool, sample: SampleFate)
    | Wake(tableAt: int, apply: ApplyFate)
    | Rerun(exited: bool, sample: SampleFate, tableAt: int, apply: ApplyFate)

  ghost predicate FairCall(c: Call) {
    match c
    case Transact(_, f) => FairEdit(f)
    case Turn(_, f) => Fair(f)
    case Wake(_, _) => true
    case Rerun(_, f, _, _) => Fair(f)
  }

  /** What one call adds to the log: at most its own edit. */
  ghost predicate Adds(c: Call, a: Log, b: Log) { if c.Transact? then EditsOnce(c.edit)(a, b) else Quiet()(a, b) }

  /** The logs and worlds a node had before, between and after the calls. */
  ghost predicate Traces(calls: seq<Call>, logs: seq<Log>, worlds: seq<World>) {
    && |logs| == |worlds| == |calls| + 1
    && (forall i :: 0 <= i <= |calls| ==> Leads()(logs[i], worlds[i]))
    && (forall i :: 0 <= i < |calls| ==> Adds(calls[i], logs[i], logs[i + 1]))
  }

  lemma TracesOn(calls: seq<Call>, logs: seq<Log>, worlds: seq<World>, c: Call, g: Log, w: World)
    requires Traces(calls, logs, worlds) && Adds(c, logs[|calls|], g) && Leads()(g, w)
    ensures Traces(calls + [c], logs + [g], worlds + [w])
  {
  }

  /** The client is there between any two of the calls, and none of them resets or renames it. */
  predicate Spares(email: string, calls: seq<Call>, worlds: seq<World>)
    requires |worlds| == |calls| + 1
  {
    && (forall i :: 0 <= i <= |calls| ==> email in worlds[i].state.traffic)
    && (forall i :: 0 <= i < |calls| && calls[i].Transact? ==> !SetsUsage(calls[i].edit, email))
  }

  lemma CallSpares(email: string, c: Call, a: Log, w: World, b: Log, v: World)
    requires Leads()(a, w) && Leads()(b, v) && Adds(c, a, b)
    requires email in w.state.traffic && email in v.state.traffic && (c.Transact? ==> !SetsUsage(c.edit, email))
    ensures Spared(email)(a, b)
  {
    if c.Transact? { EditSpares(email, c.edit, a, w, b, v); } else { QuietSpares(email, a, w, b, v); }
  }

  lemma {:induction false} CallsSpare(email: string, calls: seq<Call>, logs: seq<Log>, worlds: seq<World>, k: nat)
    requires Traces(calls, logs, worlds) && Spares(email, calls, worlds) && k <= |calls|
    ensures Spared(email)(logs[0], logs[k])
  {
    if k == 0 {
      SparedSelf(email, logs[0], worlds[0]);
    } else {
      CallsSpare(email, calls, logs, worlds, k - 1);
      assert Adds(calls[k - 1], logs[k - 1], logs[k - 1 + 1]);
      CallSpares(email, calls[k - 1], logs[k - 1], worlds[k - 1], logs[k], worlds[k]);
      SparedTrans(email, logs[0], logs[k - 1], logs[k]);
    }
  }

  /** Over any sequence of calls that spares a client, its usage grows by exactly what was metered for it, and by no
      more than its counters moved or had pending. */
  lemma CallsRecord(email: string, calls: seq<Call>, logs: seq<Log>, worlds: seq<World>)
    requires Traces(calls, logs, worlds) && Spares(email, calls, worlds)
    ensures Recorded(worlds[0], worlds[|calls|], email) && Bounded(worlds[0], worlds[|calls|], email)
  {
    var n := |calls|;
    CallsSpare(email, calls, logs, worlds, n);
    SparedRecords(email, logs[0], worlds[0], logs[n], worlds[n]);
  }

  /** Results of calls on a node that was halted before them or not, and is halted after them or not: once it is, or an
      edit has ended in doubt, every later edit is refused. */
  predicate Refuses(calls: seq<Call>, results: seq<Option<EditResult>>, before: bool, after: bool) {
    && |results| == |calls|
    && (before ==> after && forall k :: 0 <= k < |calls| && calls[k].Transact? ==> results[k] == Some(Refused))
    && (forall i, k :: 0 <= i < k < |calls| && results[i] == Some(Doubtful) && calls[k].Transact? ==> results[k] == Some(Refused))
    && (forall i :: 0 <= i < |calls| && results[i] == Some(Doubtful) ==> after)
  }

  lemma RefusesOn(calls: seq<Call>, results: seq<Option<EditResult>>, before: bool, mid: bool,
                  c: Call, r: Option<EditResult>, after: bool)
    requires Refuses(calls, results, before, mid) && (mid ==> after) && (r == Some(Doubtful) ==> after)
    requires mid && c.Transact? ==> r == Some(Refused)
    ensures Refuses(calls + [c], results + [r], before, after)
  {
  }

  class Node {
    const config: Config
    const path: string
    const engine: Core
    const files: FileSystem<Snapshot>
    var state: State
    var baseline: Counters
    var generation: nat
    var halted: bool
    ghost var settled: Counters
    /** The run of the accounting system that the node has gone through. */
    ghost var log: Log

    /** A node over a new engine and a loaded state, not yet up. */
    constructor (config: Config, path: string, engine: Core, files: FileSystem<Snapshot>, loaded: Snapshot)
      requires engine.Valid() && engine.Bytes() == Meter(0, map[], map[]) && Sound()(loaded)
      ensures this.config == config && this.path == path && this.engine == engine && this.files == files
      ensures fresh(state) && state.Value() == loaded && baseline == map[] && !halted
      ensures Tracked()
    {
      this.config, this.path, this.engine, this.files := config, path, engine, files;
      state := new State(loaded);
      baseline, generation, halted := map[], 0, false;
      settled, log := map[], Log([NewWorld(loaded)], []);
      new;
      NewWorldOk(loaded);
    }

    ghost function Now(): World
      reads this, state, engine
    {
      World(state.Value(), Books(baseline, generation, settled), engine.Bytes())
    }

    ghost function View(): Moment
      reads this, state, engine, files
    {
      Moment(Now(), engine.View(), Read(files.disk, path), halted)
    }

    /** The part of the invariant about the engine and the accounts. */
    ghost predicate Tracked()
      reads this, state, engine
    {
      engine.Valid() && Leads()(log, Now())
    }

    /** What every call keeps: whatever a crash makes of the file it holds a sound state, and that of the node unless
        the node is halted. */
    ghost predicate Fit()
      reads this, state, engine, files
    {
      Tracked() && Kept()(files.disk, path) && (!halted ==> Secure(path)(files.disk, state.Value()))
    }

    /** And a halted node has no process. */
    ghost predicate Valid()
      reads this, state, engine, files
    {
      Fit() && (halted ==> engine.proc.None?)
    }

    /** Appends one tick, from world w to world v, to the recorded run. */
    ghost method Record(w: World, t: Tick, v: World)
      requires Leads()(log, w) && TickStep()(w, t, v)
      modifies this`log
      ensures Leads()(log, v) && log == Longer(old(log), t, v)
    {
      LeadsOn(log, w, t, v);
      log := Longer(log, t, v);
    }

    /** Starts a new baseline when the process has been replaced. */
    method Observe()
      requires Tracked()
      modifies this`baseline, this`generation, this`settled, this`log
      ensures Tracked() && Quiet()(old(log), log)
      ensures Now() == old(Now()).(books := Observed(old(Now()).books, engine.generation))
      ensures generation == engine.generation
    {
      ghost var w := Now();
      if generation != engine.generation {
        settled := Plus(settled, baseline);
        baseline := map[];
        generation := engine.generation;
      }
      ObserveTick(w);
      QuietStep(log, Metering.Observe, Now());
      Record(w, Metering.Observe, Now());
    }

    /** Looks at the process generation again; otherwise the node is left as it is. */
    method ObserveAgain()
      requires Fit()
      modifies this`baseline, this`generation, this`settled, this`log
      ensures Fit() && Quiet()(old(log), log) && generation == engine.generation
      ensures baseline == if generation == old(generation) then old(baseline) else map[]
    {
      Observe();
    }

    /** The recorded run is at w, and since then only the engine has moved. */
    ghost predicate Since(w: World)
      reads this, state, engine
    {
      && Leads()(log, w)
      && w == World(state.Value(), Books(baseline, generation, settled), w.meter)
      && Advances(w.meter, engine.Bytes())
    }

    /** Records that only the engine has moved since w. */
    ghost method Settle(w: World)
      requires Since(w)
      modifies this`log
      ensures Leads()(log, Now()) && Quiet()(old(log), log)
    {
      ElapseTick(w, Now());
      QuietStep(log, Elapse, Now());
      Record(w, Elapse, Now());
    }

    /** Records a change of the state, the stamp of its save, and what the engine moved meanwhile. */
    ghost method SettleChange(w: World, t: Tick, changed: World, v: World)
      requires Leads()(log, w) && TickStep()(w, t, changed)
      requires v == AfterStamp(changed, v.state.checkpointAt, v.state.running).(meter := v.meter)
      requires Advances(changed.meter, v.meter)
      modifies this`log
      ensures Leads()(log, v) && Follows(t)(old(log), log)
    {
      ghost var stamp := Stamping(v.state.checkpointAt, v.state.running);
      ghost var stamped := AfterStamp(changed, v.state.checkpointAt, v.state.running);
      ThreeFollow(log, t, changed, stamp, stamped, Elapse, v);
      Record(w, t, changed);
      StampTick(changed, v.state.checkpointAt, v.state.running);
      Record(changed, stamp, stamped);
      ElapseTick(stamped, v);
      Record(stamped, Elapse, v);
    }

    /** Reads the counters of the running process. */
    method ReadCounters(more: Option<Counters>) returns (values: Option<Counters>)
      requires Tracked() && (more.Some? ==> NonNegative(more.value))
      modifies engine`counters, this`log
      ensures Tracked() && Quiet()(old(log), log)
      ensures values == (if engine.proc.None? || more.None? then None else Some(Plus(old(engine.counters), more.value)))
      ensures values.Some? ==> engine.counters == values.value
    {
      ghost var w := Now();
      values := engine.Stats(more);
      Settle(w);
    }

    /** Hands a state to the engine and then to the file. `prior` is the state on file. */
    method Push(next: State, tableAt: int, apply: ApplyFate, save: SaveFate, ghost prior: Snapshot) returns (applied: bool, r: Outcome)
      requires engine.Valid() && Kept()(files.disk, path) && Sound()(next.Value()) && Possible(save)
      modifies engine, files, next`checkpointAt
      ensures engine.Valid() && Advances(old(engine.Bytes()), engine.Bytes()) && Kept()(files.disk, path)
      ensures Reaches(Desired(old(next.Value()), tableAt), Stamped(old(next.Value()), save.at, old(next.Value()).running), apply, save,
        old(engine.View()), Read(old(files.disk), path), applied, r, engine.View(), Read(files.disk, path))
      ensures r == Stored ==> next.Value() == Stamped(old(next.Value()), save.at, old(next.Value()).running)
      ensures r == Stored ==> Secure(path)(files.disk, next.Value())
      ensures r == Failed && old(Secure(path)(files.disk, prior)) ==> Secure(path)(files.disk, prior)
    {
      DesiredTags(next.Value(), tableAt);
      var table := next.Wanted(tableAt);
      r := Failed;
      applied := engine.Apply(table, apply);
      if applied { r := SaveKept(files, path, next, save, prior); }
    }

    /** Gives up on a change; after a doubtful save the node stops for good, until storage is repaired and it is restarted. */
    method GiveUp(doubtful: bool, ghost w: World)
      requires engine.Valid() && Since(w)
      modifies this`halted, this`log, engine`proc
      ensures Tracked() && Quiet()(old(log), log)
      ensures halted == (old(halted) || doubtful)
      ensures engine.View() == if doubtful then Halt(old(engine.View())) else old(engine.View())
    {
      if doubtful {
        halted := true;
        engine.Stop();
      }
      Settle(w);
    }

    /** Makes a changed and saved state the current one. */
    method Adopt(next: State, readings: Counters, ghost w: World, ghost t: Tick, ghost changed: World)
      requires Since(w) && TickStep()(w, t, changed) && next != state
      requires changed == World(changed.state, w.books.(baseline := readings), w.meter)
      requires next.Value() == Stamped(changed.state, next.checkpointAt, next.running)
      modifies this`state, this`baseline, this`log
      ensures state == next && baseline == readings && Leads()(log, Now()) && Follows(t)(old(log), log)
    {
      state := next;
      baseline := readings;
      SettleChange(w, t, changed, Now());
    }

    /** Adopts a state that was saved, or gives up on it; if the file has been left in doubt the node halts. */
    method Conclude(next: State, readings: Counters, stored: bool, doubtful: bool, ghost w: World, ghost t: Tick, ghost changed: World)
      requires engine.Valid() && Since(w) && TickStep()(w, t, changed) && next != state && !(stored && doubtful)
      requires changed == World(changed.state, w.books.(baseline := readings), w.meter)
      requires stored ==> next.Value() == Stamped(changed.state, next.checkpointAt, next.running)
      modifies this`state, this`baseline, this`halted, this`log, engine`proc
      ensures Tracked() && Follows(t)(old(log), log)
      ensures state == (if stored then next else old(state)) && baseline == (if stored then readings else old(baseline))
      ensures halted == (old(halted) || doubtful)
      ensures engine.View() == if doubtful then Halt(old(engine.View())) else old(engine.View())
    {
      if stored {
        Adopt(next, readings, w, t, changed);
      } else {
        ghost var before := log;
        GiveUp(doubtful, w);
        QuietFollows(t, before, log);
      }
    }

    /** Applies a changed state, saves it and adopts it; `pushed` is the engine before it may be stopped. A save that
        fails after the engine has the state leaves that to the caller; the node halts if the file is in doubt or the
        caller cannot go back (`strict`). */
    method Commit(next: State, readings: Counters, tableAt: int, apply: ApplyFate, save: SaveFate, strict: bool,
                  ghost t: Tick, ghost changed: World) returns (applied: bool, r: Outcome, ghost pushed: CoreState)
      requires Fit() && Possible(save) && next != state
      requires TickStep()(Now(), t, changed) && Sound()(changed.state)
      requires changed == World(next.Value(), Now().books.(baseline := readings), Now().meter)
      modifies this, engine, files, next`checkpointAt
      ensures Fit() && Follows(t)(old(log), log) && generation == old(generation)
      ensures Reaches(Desired(changed.state, tableAt), Stamped(changed.state, save.at, changed.state.running), apply, save,
        old(engine.View()), Read(old(files.disk), path), applied, r, pushed, Read(files.disk, path))
      ensures state == (if r == Stored then next else old(state)) && baseline == (if r == Stored then readings else old(baseline))
      ensures r == Stored ==> next.Value() == Stamped(changed.state, save.at, changed.state.running)
      ensures var doubtful := applied && (r == Uncertain || (strict && r == Failed));
        halted == (old(halted) || doubtful) && engine.View() == if doubtful then Halt(pushed) else pushed
    {
      ghost var w, prior := Now(), state.Value();
      applied, r := Push(next, tableAt, apply, save, prior);
      pushed := engine.View();
      assert Since(w);
      Conclude(next, readings, r == Stored, applied && (r == Uncertain || (strict && r == Failed)), w, t, changed);
    }

    /** Applies, saves and adopts a sampled state that differs from the current one. */
    method CommitSample(next: State, values: Counters, f: SampleFate, ghost changed: World) returns (ok: bool)
      requires Fit() && Possible(f.save) && next != state && next.Value() != state.Value()
      requires TickStep()(Now(), Sampling(f.now), changed) && Sound()(changed.state)
      requires changed == World(next.Value(), Now().books.(baseline := values), Now().meter)
      modifies this, engine, files, next`checkpointAt
      ensures Fit() && Quiet()(old(log), log) && generation == old(generation)
      ensures (ok ==> baseline == values) && state == (if ok then next else old(state)) && (old(halted) ==> halted)
      ensures !old(halted) ==> Enters(f, changed.state, old(state.Value()), old(engine.View()),
        ok, state.Value(), engine.View(), Read(files.disk, path), halted)
    {
      if !halted { SecureReads(files.disk, path, state.Value()); }
      var applied, r, _ := Commit(next, values, f.tableAt, f.apply, f.save, true, Sampling(f.now), changed);
      ok := r == Stored;
      StampKeepsTable(changed.state, f.save.at, changed.state.running, |changed.state.inbounds|, f.tableAt);
      if !halted { SecureReads(files.disk, path, state.Value()); }
    }

    /** The state after the current reading, in a copy. */
    method Draw(values: Counters, now: int) returns (next: State, ghost changed: World)
      requires Tracked() && now >= 0 && generation == engine.generation && values == engine.counters
      ensures fresh(next) && changed == AfterSample(Now(), now) && next.Value() == changed.state
      ensures TickStep()(Now(), Sampling(now), changed) && Sound()(changed.state)
    {
      ghost var w := Now();
      LeadsToSound(log, w);
      SoundFacts(state.Value());
      SampleTick(w, now);
      changed := AfterSample(w, now);
      next := new State(state.Value());
      next.Sample(values, baseline, now);
    }

    /** A sample that changes nothing but the baseline. */
    method Rebase(values: Counters, now: int, ghost changed: World)
      requires Tracked() && TickStep()(Now(), Sampling(now), changed)
      requires changed == World(state.Value(), Now().books.(baseline := values), Now().meter)
      modifies this`baseline, this`log
      ensures Tracked() && Quiet()(old(log), log) && baseline == values
    {
      ghost var w := Now();
      baseline := values;
      QuietStep(log, Sampling(now), changed);
      Record(w, Sampling(now), changed);
    }

    /** Takes a reading of the running generation into the state; `drawn` is the state before it is saved. */
    method TakeSample(values: Counters, f: SampleFate) returns (ok: bool, ghost drawn: Snapshot)
      requires Fit() && f.now >= 0 && Possible(f.save)
      requires generation == engine.generation && values == engine.counters
      modifies this, engine, files
      ensures Fit() && Quiet()(old(log), log) && generation == old(generation)
      ensures drawn == Sampled(old(state.Value()), values, old(baseline), f.now)
      ensures (ok ==> baseline == values) && (state == old(state) || fresh(state)) && (old(halted) ==> halted)
      ensures !old(halted) ==> Enters(f, drawn, old(state.Value()), old(engine.View()),
        ok, state.Value(), engine.View(), Read(files.disk, path), halted)
    {
      var next, changed := Draw(values, f.now);
      drawn := changed.state;
      ok := true;
      if next.Value() != state.Value() {
        ok := CommitSample(next, values, f, changed);
      } else {
        if !halted { SecureReads(files.disk, path, state.Value()); }
        Rebase(values, f.now, changed);
      }
    }

    /** Takes a reading into the state; a process that this replaced starts a new baseline. */
    method TakeAndObserve(values: Counters, f: SampleFate) returns (ok: bool, ghost drawn: Snapshot)
      requires Fit() && f.now >= 0 && Possible(f.save)
      requires generation == engine.generation && values == engine.counters
      modifies this, engine, files
      ensures Fit() && Quiet()(old(log), log) && (ok ==> generation == engine.generation)
      ensures drawn == Sampled(old(state.Value()), values, old(baseline), f.now)
      ensures ok ==> baseline == if engine.generation == old(generation) then values else map[]
      ensures (state == old(state) || fresh(state)) && (old(halted) ==> halted)
      ensures !old(halted) ==> Enters(f, drawn, old(state.Value()), old(engine.View()),
        ok, state.Value(), engine.View(), Read(files.disk, path), halted)
    {
      ghost var first := log;
      ok, drawn := TakeSample(values, f);
      if ok {
        ghost var second := log;
        ObserveAgain();
        QuietTrans(first, second, log);
      }
    }

    /** The reading a sample starts from, with the baseline of its generation. */
    method Look(more: Option<Counters>) returns (values: Option<Counters>)
      requires Tracked() && (more.Some? ==> NonNegative(more.value))
      modifies engine`counters, this`baseline, this`generation, this`settled, this`log
      ensures Tracked() && Quiet()(old(log), log) && generation == engine.generation
      ensures baseline == Observed(old(Now()).books, engine.generation).baseline
      ensures values == (if engine.proc.None? || more.None? then None else Some(Plus(old(engine.counters), more.value)))
      ensures values.Some? ==> engine.counters == values.value
    {
      ghost var first := log;
      Observe();
      ghost var second := log;
      values := ReadCounters(more);
      QuietTrans(first, second, log);
    }

    /** One sample: credits what the process has moved, enforces quotas, applies and saves the result. */
    method SampleLocked(f: SampleFate) returns (ok: bool)
      requires Fit() && Fair(f)
      modifies this, engine, files
      ensures Fit() && Quiet()(old(log), log) && (ok ==> generation == engine.generation)
      ensures old(halted) ==> halted
      ensures !old(halted) ==> Valid() && Samples(f, old(View()), ok, View())
      ensures state == old(state) || fresh(state)
    {
      ghost var first := log;
      if !halted { SecureReads(files.disk, path, state.Value()); }
      var values := Look(f.more);
      ok := false;
      if values.Some? {
        ghost var second, drawn := log, state.Value();
        ok, drawn := TakeAndObserve(values.value, f);
        QuietTrans(first, second, log);
      }
    }

    /** Carries out an edit on a copy and checks it; None when it is refused. */
    method Prepare(e: Edit) returns (next: Option<State>)
      requires Tracked()
      ensures next.Some? <==> Committed(config, state.Value(), e).Some?
      ensures next.Some? ==> fresh(next.value) && Committed(config, state.Value(), e) == Some(next.value.Value())
      ensures next.Some? ==> Sound()(next.value.Value())
      ensures next.Some? ==> TickStep()(Now(), Editing(config, e), Now().(state := next.value.Value()))
    {
      LeadsToSound(log, Now());
      var draft := new State(state.Value());
      var edited := draft.Run(config, e);
      if !edited { return None; }
      var checked := draft.Check(config);
      if !checked { return None; }
      var synced := draft.SyncClients();
      if !synced { return None; }
      EditTick(Now(), config, e, draft.Value());
      next := Some(draft);
    }

    /** After a failed write: back to the old table, or no engine at all. */
    method RollBack(table: seq<Live>, fate: ApplyFate)
      requires Tracked() && UniqueTags(table)
      modifies engine, this`baseline, this`generation, this`settled, this`log
      ensures Tracked() && Quiet()(old(log), log)
      ensures engine.proc.None? || engine.proc == Some(table)
      ensures Works(fate) ==> engine.proc == Some(table)
    {
      ghost var w, first := Now(), log;
      var restored := engine.Apply(table, fate);
      if !restored { engine.Stop(); }
      Settle(w);
      ghost var second := log;
      if restored {
        Observe();
        QuietTrans(first, second, log);
      }
    }

    method OldTable(at: int) returns (table: seq<Live>)
      requires Tracked()
      ensures table == Desired(state.Value(), at) && UniqueTags(table)
    {
      LeadsToSound(log, Now());
      DesiredTags(state.Value(), at);
      table := state.Wanted(at);
    }

    /** Applies, saves and adopts an edited state; leaves the engine to the caller if only the file refused it. */
    method TryEdit(next: State, f: EditFate, ghost e: Edit, ghost changed: World) returns (r: EditResult)
      requires Fit() && !halted && Possible(f.save) && next != state && next.Value() != state.Value() && Sound()(changed.state)
      requires TickStep()(Now(), Editing(config, e), changed) && changed == Now().(state := next.Value())
      modifies this, engine, files, next`checkpointAt
      ensures Fit() && EditsOnce(e)(old(log), log)
      ensures r != RolledBack ==> Concludes(f, old(state.Value()), old(engine.View()), Some(changed.state),
        r, state.Value(), engine.View(), Read(files.disk, path), halted)
      ensures r == RolledBack ==> state == old(state) && !halted && SaveVerdict(f.save, true) == Failed
    {
      SecureReads(files.disk, path, state.Value());
      var applied, o, _ := Commit(next, baseline, f.newTableAt, f.apply, f.save, false, Editing(config, e), changed);
      r := if !applied then NotApplied else match o case Stored => Done case Uncertain => Doubtful case Failed => RolledBack;
      StampKeepsTable(changed.state, f.save.at, changed.state.running, |changed.state.inbounds|, f.newTableAt);
      if !halted { SecureReads(files.disk, path, state.Value()); }
    }

    /** Applies, saves and adopts an edited state that differs from the current one. */
    method CommitEdit(next: State, f: EditFate, ghost e: Edit) returns (r: EditResult)
      requires Fit() && !halted && Possible(f.save) && next != state && next.Value() != state.Value() && Sound()(next.Value())
      requires TickStep()(Now(), Editing(config, e), Now().(state := next.Value()))
      modifies this, engine, files, next`checkpointAt
      ensures Fit() && EditsOnce(e)(old(log), log)
      ensures Concludes(f, old(state.Value()), old(engine.View()), Some(old(next.Value())),
        r, state.Value(), engine.View(), Read(files.disk, path), halted)
    {
      ghost var s, wanted := state.Value(), next.Value();
      var oldTable := OldTable(f.oldTableAt);
      r := TryAndObserve(next, f, e);
      if r == RolledBack {
        SecureReads(files.disk, path, s);
        ghost var first, second := old(log), log;
        RollBack(oldTable, f.rollback);
        EditThenQuiet(e, first, second, log);
      }
    }

    method TryAndObserve(next: State, f: EditFate, ghost e: Edit) returns (r: EditResult)
      requires Fit() && !halted && Possible(f.save) && next != state && next.Value() != state.Value() && Sound()(next.Value())
      requires TickStep()(Now(), Editing(config, e), Now().(state := next.Value()))
      modifies this, engine, files, next`checkpointAt
      ensures Fit() && EditsOnce(e)(old(log), log)
      ensures r != RolledBack ==> Concludes(f, old(state.Value()), old(engine.View()), Some(old(next.Value())),
        r, state.Value(), engine.View(), Read(files.disk, path), halted)
      ensures r == RolledBack ==> state.Value() == old(state.Value()) && !halted && SaveVerdict(f.save, true) == Failed
    {
      ghost var first := log;
      r := TryEdit(next, f, e, Now().(state := next.Value()));
      ghost var second := log;
      ObserveAgain();
      EditThenQuiet(e, first, second, log);
    }

    /** An edit of the current state: edited and checked in a copy, applied, saved, adopted. `wanted` is the state it asks for. */
    method EditLocked(e: Edit, f: EditFate) returns (r: EditResult, ghost wanted: Option<Snapshot>)
      requires Fit() && !halted && Possible(f.save)
      modifies this, engine, files
      ensures Fit() && EditsOnce(e)(old(log), log)
      ensures wanted == Committed(config, old(state.Value()), e)
      ensures Concludes(f, old(state.Value()), old(engine.View()), wanted,
        r, state.Value(), engine.View(), Read(files.disk, path), halted)
    {
      QuietSelf(log);
      QuietIsOnce(e, log, log);
      SecureReads(files.disk, path, state.Value());
      var next := Prepare(e);
      wanted := if next.None? then None else Some(next.value.Value());
      if next.None? {
        r := Rejected;
      } else if next.value.Value() == state.Value() {
        r := Unchanged;
      } else {
        r := CommitEdit(next.value, f, e);
      }
    }

    /** The sample that precedes an edit or a restart, if the process is running. */
    method Lead(exited: bool, f: SampleFate) returns (ok: bool)
      requires Fit() && Fair(f)
      modifies this, engine, files
      ensures Fit() && Quiet()(old(log), log)
      ensures old(halted) ==> halted
      ensures !old(halted) ==> Valid() && Leading(exited, f, old(View()), ok, View()) && (ok ==> !halted)
      ensures state == old(state) || fresh(state)
    {
      QuietSelf(log);
      var up := engine.Running(exited);
      ok := true;
      if up { ok := SampleLocked(f); }
    }

    /** One edit by a master, after a leading sample if the process is running. `mid` is the node after that sample,
        `wanted` the state the edit asks for then. */
    method Transaction(e: Edit, f: EditFate) returns (r: EditResult, ghost mid: Moment, ghost wanted: Option<Snapshot>)
      requires Fit() && FairEdit(f)
      modifies this, engine, files
      ensures Fit() && EditsOnce(e)(old(log), log)
      ensures r == Refused <==> old(halted)
      ensures old(halted) ==> View() == old(View()) && files.disk == old(files.disk) && log == old(log)
      ensures !old(halted) ==> Valid() && Leading(f.exited, f.sample, old(View()), r != Unsampled, mid)
      ensures r == Unsampled ==> View() == mid
      ensures r !in {Refused, Unsampled} ==> wanted == Committed(config, mid.world.state, e)
      ensures r !in {Refused, Unsampled} ==> Concludes(f, mid.world.state, mid.core, wanted,
        r, state.Value(), engine.View(), Read(files.disk, path), halted)
    {
      mid, wanted, r := View(), None, Refused;
      QuietSelf(log);
      QuietIsOnce(e, log, log);
      if !halted {
        ghost var first := log;
        var ok := Lead(f.exited, f.sample);
        mid, r := View(), Unsampled;
        ghost var second := log;
        QuietIsOnce(e, first, second);
        if ok {
          r, wanted := EditLocked(e, f);
          QuietThenEdit(e, first, second, log);
        }
      }
    }

    /** Applies the table of the current state. A stopped engine comes up on that table if it is launched, else on the
        recorded one if the fallback is, else not at all. */
    method Recover(tableAt: int, fate: ApplyFate) returns (ok: bool)
      requires Fit()
      modifies engine, this`baseline, this`generation, this`settled, this`log
      ensures Fit() && Quiet()(old(log), log)
      ensures ok ==> engine.proc == Some(Desired(state.Value(), tableAt))
      ensures ok ==> generation == engine.generation && baseline == if generation == old(generation) then old(baseline) else map[]
      ensures Works(fate) ==> ok
      ensures old(engine.proc).None? ==> Relaunched(Desired(state.Value(), tableAt), fate, old(engine.View()), ok, engine.View())
    {
      ghost var first := log;
      ok := ApplyTable(tableAt, fate);
      if ok {
        ghost var second := log;
        ObserveAgain();
        QuietTrans(first, second, log);
      }
    }

    method ApplyTable(tableAt: int, fate: ApplyFate) returns (ok: bool)
      requires Fit()
      modifies engine, this`log
      ensures Fit() && Quiet()(old(log), log)
      ensures ok ==> engine.proc == Some(Desired(state.Value(), tableAt))
      ensures Works(fate) ==> ok
      ensures old(engine.proc).None? ==> Relaunched(Desired(state.Value(), tableAt), fate, old(engine.View()), ok, engine.View())
    {
      ghost var w := Now();
      var table := OldTable(tableAt);
      ok := engine.Apply(table, fate);
      Settle(w);
    }

    method StopEngine()
      requires Fit()
      modifies engine`proc
      ensures Fit() && engine.View() == Halt(old(engine.View()))
    {
      engine.Stop();
    }

    method Relaunch(tableAt: int, fate: ApplyFate) returns (ok: bool)
      requires Fit()
      modifies engine, this`baseline, this`generation, this`settled, this`log
      ensures Fit() && Quiet()(old(log), log) && generation == engine.generation
      ensures Relaunched(Desired(state.Value(), tableAt), fate, old(engine.View()), ok, engine.View())
      ensures ok ==> baseline == map[]
    {
      ghost var first := log;
      StopEngine();
      LeadsToGood(log, Now());
      BooksAreBehind(Now());
      ok := ApplyTable(tableAt, fate);
      ghost var second := log;
      ObserveAgain();
      QuietTrans(first, second, log);
    }

    method RelaunchAfter(tableAt: int, fate: ApplyFate, ghost first: Log) returns (ok: bool)
      requires Fit() && Quiet()(first, log)
      modifies engine, this`baseline, this`generation, this`settled, this`log
      ensures Fit() && Quiet()(first, log)
      ensures Relaunched(Desired(state.Value(), tableAt), fate, old(engine.View()), ok, engine.View())
      ensures ok ==> baseline == map[] && generation == engine.generation
    {
      ghost var second := log;
      ok := Relaunch(tableAt, fate);
      QuietTrans(first, second, log);
    }

    /** Restarts the engine on the table of the current state, after a leading sample if the process is running. `mid`
        is the node after that sample. */
    method Restart(exited: bool, f: SampleFate, tableAt: int, fate: ApplyFate) returns (led: bool, ok: bool, ghost mid: Moment)
      requires Fit() && Fair(f)
      modifies this, engine, files
      ensures Fit() && Quiet()(old(log), log)
      ensures old(halted) ==> !led && View() == old(View()) && files.disk == old(files.disk) && log == old(log)
      ensures !old(halted) ==> Valid() && Leading(exited, f, old(View()), led, mid)
      ensures !led ==> !ok && View() == mid
      ensures led ==> !halted && state.Value() == mid.world.state
      ensures led ==> Relaunched(Desired(state.Value(), tableAt), fate, mid.core, ok, engine.View())
      ensures ok ==> baseline == map[] && generation == engine.generation
    {
      ghost var first := log;
      QuietSelf(first);
      if halted { return false, false, View(); }
      led := Lead(exited, f);
      mid := View();
      if !led { return false, false, mid; }
      ok := RelaunchAfter(tableAt, fate, first);
    }

    /** One turn of the background loop: a running process is sampled; for a stopped one the loop lets go of the
        node and waits before it recovers it. */
    method Tick(exited: bool, f: SampleFate) returns (waits: bool, ok: bool)
      requires Fit() && Fair(f)
      modifies this, engine, files
      ensures Fit() && Quiet()(old(log), log)
      ensures old(halted) ==> !waits && View() == old(View()) && files.disk == old(files.disk) && log == old(log)
      ensures !old(halted) ==> Valid() && Leading(exited, f, old(View()), ok, View())
      ensures !old(halted) ==> (waits <==> exited || old(engine.proc).None?)
    {
      waits, ok := false, true;
      QuietSelf(log);
      if !halted {
        var up := engine.Running(exited);
        if up { ok := SampleLocked(f); } else { waits := true; }
      }
    }

    /** The recovery after the wait. It does not ask whether an edit has halted the node meanwhile: the node
        invariant survives exactly if none did or neither the table nor the fallback comes up. */
    method AfterWait(tableAt: int, fate: ApplyFate) returns (ok: bool)
      requires Fit()
      modifies engine, this`baseline, this`generation, this`settled, this`log
      ensures Fit() && Quiet()(old(log), log)
      ensures ok ==> engine.proc == Some(Desired(state.Value(), tableAt)) && generation == engine.generation
      ensures Works(fate) ==> ok
      ensures old(engine.proc).None? ==> Relaunched(Desired(state.Value(), tableAt), fate, old(engine.View()), ok, engine.View())
      ensures old(Valid()) ==> (Valid() <==> !halted || (fate.start != Ready && fate.fallback != Ready))
    {
      ok := Recover(tableAt, fate);
    }

    /** Marks the stored state as cleanly stopped. */
    method MarkStopped(save: SaveFate) returns (stored: bool)
      requires Fit() && !halted && Possible(save)
      modifies files, state
      ensures Kept()(files.disk, path) && (stored <==> SaveVerdict(save, true) == Stored)
      ensures stored ==> Secure(path)(files.disk, Stamped(old(state.Value()), save.at, false))
      ensures SaveVerdict(save, true) == Failed ==> Secure(path)(files.disk, old(state.Value()))
      ensures Read(files.disk, path) in {Some(old(state.Value())), Some(Stamped(old(state.Value()), save.at, false))}
    {
      ghost var prior := state.Value();
      SecureReads(files.disk, path, prior);
      LeadsToSound(log, Now());
      StampIsSound(prior, state.checkpointAt, false);
      state.running := false;
      var r := SaveKept(files, path, state, save, prior);
      stored := r == Stored;
    }

    /** Stops the engine and, unless the node is halted, marks the stop as clean. */
    method StopAndMark(save: SaveFate) returns (clean: bool)
      requires Fit() && Possible(save)
      modifies engine`proc, files, state
      ensures engine.proc.None? && Kept()(files.disk, path)
      ensures clean <==> !halted && SaveVerdict(save, true) == Stored
      ensures clean ==> Secure(path)(files.disk, Stamped(old(state.Value()), save.at, false))
      ensures !halted && SaveVerdict(save, true) == Failed ==> Secure(path)(files.disk, old(state.Value()))
      ensures Read(files.disk, path) in {Read(old(files.disk), path), Some(Stamped(old(state.Value()), save.at, false))}
    {
      StopEngine();
      clean := false;
      if !halted {
        SecureReads(files.disk, path, state.Value());
        clean := MarkStopped(save);
      }
    }

    /** The end of the background loop: a last sample if the process is running, the engine stopped and, unless the
        node is halted, a mark that the stop was clean. `mid` is the node after the sample. */
    method Shutdown(exited: bool, f: SampleFate, save: SaveFate) returns (led: bool, clean: bool, ghost mid: Moment)
      requires Fit() && Fair(f) && Possible(save)
      modifies this, engine, files, state
      ensures engine.proc.None? && Kept()(files.disk, path)
      ensures old(halted) ==> halted
      ensures !old(halted) ==> Leading(exited, f, old(View()), led, mid) && halted == mid.halted
      ensures clean <==> !halted && SaveVerdict(save, true) == Stored
      ensures clean ==> Secure(path)(files.disk, Stamped(mid.world.state, save.at, false))
      ensures !halted && SaveVerdict(save, true) == Failed ==> Secure(path)(files.disk, mid.world.state)
      ensures Read(files.disk, path) in {mid.file, Some(Stamped(mid.world.state, save.at, false))}
    {
      led := Lead(exited, f);
      mid := View();
      clean := StopAndMark(save);
    }

    /** One call; the result of an edit. A halted node refuses edits, and keeps its state and its file. */
    method Handle(c: Call) returns (r: Option<EditResult>)
      requires Fit() && FairCall(c)
      modifies this, engine, files
      ensures Fit() && Adds(c, old(log), log)
      ensures r.Some? <==> c.Transact?
      ensures old(halted) ==> halted && state.Value() == old(state.Value()) && files.disk == old(files.disk)
      ensures r.Some? ==> (r.value == Refused <==> old(halted)) && (r.value == Doubtful ==> halted)
    {
      r := None;
      match c
      case Transact(e, f) =>
        var result, _, _ := Transaction(e, f);
        r := Some(result);
      case Turn(exited, f) => var _, _ := Tick(exited, f);
      case Wake(tableAt, apply) => var _ := AfterWait(tableAt, apply);
      case Rerun(exited, f, tableAt, apply) => var _, _, _ := Restart(exited, f, tableAt, apply);
    }

    /** Any sequence of calls. Once an edit has ended in doubt every later one is refused, and state and file stay. */
    method Serve(calls: seq<Call>)
      returns (results: seq<Option<EditResult>>, ghost logs: seq<Log>, ghost worlds: seq<World>)
      requires Fit() && forall i :: 0 <= i < |calls| ==> FairCall(calls[i])
      modifies this, engine, files
      ensures Fit() && Refuses(calls, results, old(halted), halted)
      ensures Traces(calls, logs, worlds) && logs[|calls|] == log
      ensures worlds[0] == old(Now()) && worlds[|calls|] == Now()
      ensures old(halted) ==> state.Value() == old(state.Value()) && files.disk == old(files.disk)
    {
      if calls == [] { return [], [log], [Now()]; }
      var n := |calls| - 1;
      results, logs, worlds := Serve(calls[..n]);
      ghost var mid := halted;
      var r := Handle(calls[n]);
      RefusesOn(calls[..n], results, old(halted), mid, calls[n], r, halted);
      TracesOn(calls[..n], logs, worlds, calls[n], log, Now());
      assert calls == calls[..n] + [calls[n]];
      results, logs, worlds := results + [r], logs + [log], worlds + [Now()];
    }
  }

  /** Whether a state can be loaded: the file can be read, or there is none and no backup of one either. */
  predicate Loads(d: Disk<Snapshot>, path: string, load: LoadFate) {
    load != Unreadable && if Read(d, path).Some? then load == AsStored else Lookup(d, Entry(BackupName(path))).None?
  }

  predicate Boots(d: Disk<Snapshot>, path: string, load: LoadFate, save: SaveFate, start: StartFate) {
    Loads(d, path, load) && SaveVerdict(save, Read(d, path).Some?) == Stored && start == Ready
  }

  /** Brings a node up from its state file: loaded, marked as running, saved, applied. Null is an error. */
  method Boot(config: Config, path: string, engine: Core, files: FileSystem<Snapshot>, guid: string,
              load: LoadFate, save: SaveFate, tableAt: int, fate: ApplyFate) returns (n: Node?)
    requires engine.Valid() && engine.View() == CoreState(None, [], 0) && engine.Bytes() == Meter(0, map[], map[])
    requires Clean(files.disk) && Possible(save) && guid != ""
    requires Read(files.disk, path).Some? ==> Sound()(Read(files.disk, path).value)
    modifies engine, files
    ensures n != null <==> Boots(old(files.disk), path, load, save, fate.start)
    ensures n != null ==> fresh(n) && n.Valid() && !n.halted && n.engine == engine && n.files == files && n.path == path
    ensures n != null ==> n.state.Value() == Stamped(
      if Read(old(files.disk), path).Some? then Read(old(files.disk), path).value else Fresh(guid), save.at, true)
    ensures n != null ==> engine.proc == Some(Desired(n.state.Value(), tableAt))
    ensures n != null ==> n.baseline == map[] && n.generation == engine.generation
  {
    n := null;
    FreshIsOk(guid);
    ghost var stored := Read(files.disk, path);
    if stored.Some? { SoundLoads(stored.value); }
    var loaded := LoadState(files, path, guid, load);
    if loaded.Some? {
      var saved := SaveRunning(files, path, loaded.value, save);
      if saved.Some? { n := Start(config, path, engine, files, saved.value, tableAt, fate); }
    }
  }

  lemma SoundLoads(s: Snapshot)
    requires Sound()(s)
    ensures LoadAccepts(s)
  {
    LoaderAccepts(s);
  }

  /** Serves a state that has just been stored. */
  method Start(config: Config, path: string, engine: Core, files: FileSystem<Snapshot>, stored: Snapshot,
               tableAt: int, fate: ApplyFate) returns (n: Node?)
    requires engine.Valid() && engine.View() == CoreState(None, [], 0) && engine.Bytes() == Meter(0, map[], map[])
    requires Sound()(stored) && Kept()(files.disk, path) && Secure(path)(files.disk, stored)
    modifies engine
    ensures n != null <==> fate.start == Ready
    ensures n != null ==> fresh(n) && n.Valid() && !n.halted && n.engine == engine && n.files == files && n.path == path
    ensures n != null ==> n.state.Value() == stored && engine.proc == Some(Desired(stored, tableAt))
    ensures n != null ==> n.baseline == map[] && n.generation == engine.generation
  {
    var node := new Node(config, path, engine, files, stored);
    var ok := node.Recover(tableAt, fate);
    n := if ok then node else null;
  }
}
