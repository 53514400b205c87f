/** Saving and loading a node's state. A file's content is the state it encodes. */
module NodeStore {
  import opened Options
  import opened NodeTypes
  import opened Edits
  import opened Histories
  import opened Invariant
  import opened NodeState
  import opened Store

  /** How one save goes: when, whether the encoding is over the size limit, and the file-system step that fails. */
  datatype SaveFate = SaveFate(at: int, oversize: bool, write: Fate, backup: Fate)

  predicate Possible(f: SaveFate) { f.backup != AtReadOld }

  /** How a save of a state over an existing file ends. */
  function SaveVerdict(f: SaveFate, hadOld: bool): Outcome {
    if f.oversize then Failed else Verdict(f.write, BackupVerdict(true, hadOld, f.backup))
  }

  /** Stamps the state and writes it, keeping the prior file under the backup name. */
  method SaveState(files: FileSystem<Snapshot>, path: string, s: State, f: SaveFate) returns (r: Outcome)
    requires Clean(files.disk) && Possible(f)
    modifies files, s`checkpointAt
    ensures s.Value() == Stamped(old(s.Value()), f.at, old(s.Value()).running)
    ensures r == SaveVerdict(f, Read(old(files.disk), path).Some?)
    ensures Read(files.disk, path) == Some(s.Value()) || Read(files.disk, path) == Read(old(files.disk), path)
    ensures r == Stored ==> Read(files.disk, path) == Some(s.Value())
    ensures r == Failed ==> Read(files.disk, path) == Read(old(files.disk), path)
    ensures r == Stored ==> forall x :: MayHold(files.disk, path, x) ==> x == Some(s.Value())
    ensures r == Failed ==> Exposes(old(files.disk), files.disk, path)
    ensures f.oversize || var job := Job(old(files.disk), path, s.Value(), Read(old(files.disk), path));
      Guarded(job, files.disk) && Progress(job, old(files.history), files.history)
    ensures f.oversize ==> files.disk == old(files.disk) && files.history == old(files.history)
  {
    s.checkpointAt := f.at;
    if f.oversize { return Failed; }
    r := files.AtomicWrite(path, s.Value(), true, f.write, f.backup);
  }

  predicate Apart(a: Inbound, b: Inbound) { a.id != b.id && a.port != b.port && a.tag != b.tag }

  predicate AllApart(ibs: seq<Inbound>) { forall i, k :: 0 <= i < k < |ibs| ==> Apart(ibs[i], ibs[k]) }

  lemma AllApartMeans(ibs: seq<Inbound>)
    ensures AllApart(ibs) <==> DistinctIds(ibs) && DistinctPorts(ibs) && DistinctTags(ibs)
  {
    if AllApart(ibs) {
      forall i, k | 0 <= i < k < |ibs| ensures ibs[i].id != ibs[k].id && ibs[i].port != ibs[k].port && ibs[i].tag != ibs[k].tag {
        assert Apart(ibs[i], ibs[k]);
      }
    }
  }

  /** The checks the loader makes of each inbound, with the identities met so far in sets. */
  method CheckIdentities(s: Snapshot) returns (ok: bool)
    ensures ok <==> (forall i :: 0 <= i < |s.inbounds| ==> Identified(s, s.inbounds[i])) && AllApart(s.inbounds)
  {
    var ids, ports, tags := {}, {}, {};
    for j := 0 to |s.inbounds|
      invariant forall x :: x in ids <==> exists i :: 0 <= i < j && s.inbounds[i].id == x
      invariant forall x :: x in ports <==> exists i :: 0 <= i < j && s.inbounds[i].port == x
      invariant forall x :: x in tags <==> exists i :: 0 <= i < j && s.inbounds[i].tag == x
      invariant forall i :: 0 <= i < j ==> Identified(s, s.inbounds[i])
      invariant forall i, k :: 0 <= i < k < j ==> Apart(s.inbounds[i], s.inbounds[k])
    {
      var ib := s.inbounds[j];
      if !Identified(s, ib) { return false; }
      if ib.id in ids || ib.port in ports || ib.tag in tags {
        ghost var i :| 0 <= i < j && !Apart(s.inbounds[i], ib);
        return false;
      }
      ids, ports, tags := ids + {ib.id}, ports + {ib.port}, tags + {ib.tag};
    }
    ok := true;
  }

  predicate Identified(s: Snapshot, ib: Inbound) { 1 <= ib.id < s.nextId && ValidInbound(ib) }

  predicate RowsLoad(s: Snapshot) {
    && (forall e :: e in s.traffic ==>
         var t := s.traffic[e]; t.email == e && t.up >= 0 && t.down >= 0 && 1 <= t.id < s.nextClientId)
    && (forall m :: m in s.globals ==> |s.globals[m]| <= MAX_CLIENTS)
    && (forall m :: m in s.globals ==> forall e :: e in s.globals[m] ==> s.globals[m][e].up >= 0 && s.globals[m][e].down >= 0)
  }

  /** How reading the state file goes, when there is one: the file may be unreadable, too long or not decodable. */
  datatype LoadFate = AsStored | Unreadable | Oversize | Undecodable

  /** Loads the stored state, or a fresh one if nothing was ever stored; None is an error. */
  method LoadState(files: FileSystem<Snapshot>, path: string, guid: string, load: LoadFate) returns (r: Option<Snapshot>)
    ensures load == Unreadable ==> r == None
    ensures load != Unreadable && Lookup(files.disk, Entry(path)).None? ==>
      r == if Lookup(files.disk, Entry(BackupName(path))).Some? then None else Some(Fresh(guid))
    ensures load != Unreadable && Lookup(files.disk, Entry(path)).Some? ==>
      r == if load == AsStored && Read(files.disk, path).Some? && LoadAccepts(Read(files.disk, path).value)
           then Read(files.disk, path) else None
  {
    if load == Unreadable { return None; }
    if Lookup(files.disk, Entry(path)).None? {
      var backup := Lookup(files.disk, Entry(BackupName(path)));
      return if backup.Some? then None else Some(Fresh(guid));
    }
    var found := Read(files.disk, path);
    if load != AsStored || found.None? { return None; }
    var s := found.value;
    if s.schema != 1 || s.guid == "" || s.nextId < 1 || s.nextClientId < 1 { return None; }
    if |s.inbounds| > MAX_INBOUNDS || |s.traffic| > MAX_CLIENTS || |s.globals| > MAX_MASTERS { return None; }
    var identified := CheckIdentities(s);
    AllApartMeans(s.inbounds);
    if !identified || !RowsLoad(s) { return None; }
    r := found;
  }

  /** The file, and whatever a crash can make of it, holds a sound state. */
  ghost function Kept(): (Disk<Snapshot>, string) -> bool {
    (d: Disk<Snapshot>, path: string) =>
      Clean(d) && Read(d, path).Some? && forall x :: MayHold(d, path, x) ==> x.Some? && Sound()(x.value)
  }

  /** The file holds the state s, and still does after any crash. */
  ghost function Secure(path: string): (Disk<Snapshot>, Snapshot) -> bool {
    (d: Disk<Snapshot>, s: Snapshot) => Read(d, path) == Some(s) && forall x :: MayHold(d, path, x) ==> x == Some(s)
  }

  lemma SecureReads(d: Disk<Snapshot>, path: string, s: Snapshot)
    requires Secure(path)(d, s)
    ensures Read(d, path) == Some(s)
  {
  }

  lemma WriteKeeps(before: Disk<Snapshot>, after: Disk<Snapshot>, path: string, s: Snapshot)
    requires Kept()(before, path) && Sound()(s)
    requires Guarded(Job(before, path, s, Read(before, path)), after) && Read(after, path).Some?
    ensures Kept()(after, path)
  {
    assert |BackupName(path)| != |path|;
  }

  /** From before to after one save of s went on, through disks that are guarded. */
  ghost predicate Saves(path: string, s: Snapshot, before: Disk<Snapshot>, was: seq<Disk<Snapshot>>, now: seq<Disk<Snapshot>>) {
    Progress(Job(before, path, s, Read(before, path)), was, now)
  }

  /** Saves a sound state over a file that is kept; it stays kept whatever happens. A failed save leaves a secure
      prior state secure. */
  method SaveKept(files: FileSystem<Snapshot>, path: string, s: State, f: SaveFate, ghost prior: Snapshot) returns (r: Outcome)
    requires Kept()(files.disk, path) && Possible(f) && Sound()(s.Value())
    modifies files, s`checkpointAt
    ensures Kept()(files.disk, path)
    ensures s.Value() == Stamped(old(s.Value()), f.at, old(s.Value()).running)
    ensures r == SaveVerdict(f, true)
    ensures r == Stored ==> Secure(path)(files.disk, s.Value())
    ensures r == Failed && old(Secure(path)(files.disk, prior)) ==> Secure(path)(files.disk, prior)
    ensures Read(files.disk, path) in {Some(s.Value()), Read(old(files.disk), path)}
    ensures Saves(path, s.Value(), old(files.disk), old(files.history), files.history)
  {
    ghost var before := files.disk;
    r := SaveState(files, path, s, f);
    StampKeepsStateOk(old(s.Value()), s.Value());
    assert Sound()(s.Value());
    if !f.oversize { WriteKeeps(before, files.disk, path, s.Value()); }
  }

  /** A crash at any moment of a save leaves a disk a node can be brought up from: the file holds, whole, the state
      that was secure before or the one being saved, and the loader accepts it. */
  lemma CrashDuringSave(before: Disk<Snapshot>, path: string, prior: Snapshot, s: Snapshot,
                        was: seq<Disk<Snapshot>>, now: seq<Disk<Snapshot>>, i: nat, after: Disk<Snapshot>)
    requires Secure(path)(before, prior) && Sound()(prior) && Sound()(s)
    requires Saves(path, s, before, was, now) && |was| <= i < |now| && Crashes(now[i], after)
    ensures Clean(after) && Read(after, path) in {Some(prior), Some(s)}
    ensures Sound()(Read(after, path).value) && LoadAccepts(Read(after, path).value)
  {
    var job := Job(before, path, s, Read(before, path));
    assert Guarded(job, now[i]);
    CrashShowsWholeContents(job, now[i], after);
    CrashIsClean(now[i], after, path);
    SoundFacts(Read(after, path).value);
    LoaderAccepts(Read(after, path).value);
  }

  /** A crash between calls leaves such a disk too: with the state of a node that is not halted, and for a halted one
      with some sound state. */
  lemma CrashAtRest(d: Disk<Snapshot>, path: string, s: Snapshot, after: Disk<Snapshot>)
    requires Kept()(d, path) && Crashes(d, after)
    ensures Clean(after) && Read(after, path).Some? && Sound()(Read(after, path).value)
    ensures LoadAccepts(Read(after, path).value)
    ensures Secure(path)(d, s) ==> Read(after, path) == Some(s)
  {
    CrashIsClean(d, after, path);
    LoaderAccepts(Read(after, path).value);
  }

  lemma StoredIsKept(d: Disk<Snapshot>, path: string, s: Snapshot)
    requires Clean(d) && Read(d, path) == Some(s) && Sound()(s)
    requires forall x :: MayHold(d, path, x) ==> x == Some(s)
    ensures Kept()(d, path) && Secure(path)(d, s)
  {
  }

  lemma StampIsSound(s: Snapshot, at: int, running: bool)
    requires Sound()(s)
    ensures Sound()(Stamped(s, at, running))
  {
    StampKeepsStateOk(s, Stamped(s, at, running));
  }

  /** The first save of a node: the loaded state, marked as running. */
  method SaveRunning(files: FileSystem<Snapshot>, path: string, loaded: Snapshot, f: SaveFate) returns (stored: Option<Snapshot>)
    requires Clean(files.disk) && Possible(f) && Sound()(loaded)
    modifies files
    ensures stored == if SaveVerdict(f, Read(old(files.disk), path).Some?) == Stored then Some(Stamped(loaded, f.at, true)) else None
    ensures stored.Some? ==> Sound()(stored.value) && Kept()(files.disk, path) && Secure(path)(files.disk, stored.value)
    ensures stored.None? ==> Read(files.disk, path) in {Some(Stamped(loaded, f.at, true)), Read(old(files.disk), path)}
  {
    StampIsSound(loaded, f.at, true);
    var s := new State(loaded.(running := true));
    var r := SaveState(files, path, s, f);
    stored := None;
    if r == Stored {
      StoredIsKept(files.disk, path, s.Value());
      stored := Some(s.Value());
    }
  }
}
