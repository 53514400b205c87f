/** Crash-atomic persistence: the file-system steps behind AtomicWrite, with a
    directory whose unsynced entries a crash may lose or keep one by one, and
    files whose unsynced bytes a crash may replace with anything. */
module Store {
  import opened Options

  /** A file: None while its bytes are not completely written. */
  datatype File<C> = File(data: Option<C>, synced: bool)

  datatype Name = Entry(path: string) | Temp(number: nat)

  /** `entries` is the directory as running processes see it. `stale` holds, for
      each name changed since the last directory sync, the inodes it had. */
  datatype Disk<C> = Disk(
    files: map<nat, File<C>>,
    entries: map<Name, nat>,
    stale: map<Name, set<Option<nat>>>,
    next: nat)

  function Lookup<C>(d: Disk<C>, n: Name): Option<nat> {
    if n in d.entries then Some(d.entries[n]) else None
  }

  /** The entries a crash can leave behind for n. */
  function Exposed<C>(d: Disk<C>, n: Name): set<Option<nat>> {
    (if n in d.stale then d.stale[n] else {}) + {Lookup(d, n)}
  }

  function Bytes<C>(d: Disk<C>, e: Option<nat>): Option<C> {
    if e.Some? && e.value in d.files then d.files[e.value].data else None
  }

  /** What a reader finds under path. */
  function Read<C>(d: Disk<C>, path: string): Option<C> {
    Bytes(d, Lookup(d, Entry(path)))
  }

  /** Every content that path can have after a crash. */
  ghost predicate MayHold<C(!new)>(d: Disk<C>, path: string, x: Option<C>) {
    exists e :: e in Exposed(d, Entry(path)) && x == Bytes(d, e)
  }

  /** Named files, now or after a crash, are completely written and synced. */
  ghost predicate Clean<C(!new)>(d: Disk<C>) {
    && (forall i :: i in d.files ==> i < d.next)
    && (forall k: nat :: Temp(k) in d.entries ==> k < d.next)
    && (forall p, i :: Some(i) in Exposed(d, Entry(p)) ==>
         i in d.files && d.files[i].synced && d.files[i].data.Some?)
  }

  /** A crash keeps, name by name, one exposed entry; the bytes of unsynced files are lost. What is found
      afterwards is on the disk, and new temporary files get names that are free. */
  ghost predicate Crashes<C(!new)>(d: Disk<C>, after: Disk<C>) {
    && after.stale == map[] && after.next >= d.next
    && (forall k: nat :: Temp(k) in after.entries ==> k < after.next)
    && (forall n :: Lookup(after, n) in Exposed(d, n))
    && after.files.Keys == d.files.Keys
    && (forall i :: i in d.files && d.files[i].synced ==> after.files[i] == d.files[i])
  }

  /** The work of giving `path` the content `fresh`, begun on the disk `start`,
      with `kept` to be copied under the backup name. */
  datatype Job<C> = Job(start: Disk<C>, path: string, content: C, kept: Option<C>)

  /** d exposes nothing the start did not, except whole contents: the content
      under path and the kept one under the backup name. */
  ghost predicate Guarded<C(!new)>(job: Job<C>, d: Disk<C>) {
    && Clean(d)
    && d.next >= job.start.next
    && forall p, x :: MayHold(d, p, x) ==>
         || MayHold(job.start, p, x)
         || (p == job.path && x == Some(job.content))
         || (p == BackupName(job.path) && x.Some? && x == job.kept)
  }

  /** Temporary file k is complete, synced and named by nothing else. */
  ghost predicate Holds<C(!new)>(d: Disk<C>, k: nat, c: C) {
    && IsTemp(d, k)
    && k in d.files && d.files[k] == File(Some(c), true)
    && forall p :: Some(k) !in Exposed(d, Entry(p))
  }

  /** From d to e no existing file changed, temporary names older than e's kept
      their file, and names were given only new files. */
  ghost predicate AddsOnly<C(!new)>(d: Disk<C>, e: Disk<C>) {
    && e.next >= d.next
    && (forall i :: i in d.files ==> i in e.files && e.files[i] == d.files[i])
    && (forall k: nat :: k < d.next && Temp(k) in d.entries ==> Temp(k) in e.entries && e.entries[Temp(k)] == d.entries[Temp(k)])
    && (forall p, i :: Some(i) in Exposed(e, Entry(p)) ==> Some(i) in Exposed(d, Entry(p)) || i >= d.next)
  }

  function CreateTemp<C>(d: Disk<C>): Disk<C> {
    d.(files := d.files[d.next := File(None, false)],
       entries := d.entries[Temp(d.next) := d.next],
       stale := d.stale[Temp(d.next) := Exposed(d, Temp(d.next))],
       next := d.next + 1)
  }

  function SetFile<C>(d: Disk<C>, inode: nat, f: File<C>): Disk<C> {
    d.(files := d.files[inode := f])
  }

  function Rename<C>(d: Disk<C>, from: Name, to: Name): Disk<C>
    requires from in d.entries
  {
    d.(entries := (d.entries - {from})[to := d.entries[from]],
       stale := d.stale[from := Exposed(d, from)][to := Exposed(d, to)])
  }

  function Remove<C>(d: Disk<C>, n: Name): Disk<C> {
    if n in d.entries then d.(entries := d.entries - {n}, stale := d.stale[n := Exposed(d, n)]) else d
  }

  function SyncDir<C>(d: Disk<C>): Disk<C> {
    d.(stale := map[])
  }

  /** The step of one AtomicWrite that fails. */
  datatype Fate = AtMkdir | AtCreate | AtWrite | AtSync | AtClose | AtReadOld | AtRename | AtOpenDir | AtSyncDir | Never

  datatype Outcome = Stored | Failed | Uncertain

  function BackupName(path: string): string { path + ".previous" }

  /** Whether the write reaches the rename over path, given that the backup (if one is made) ended with `inner`. */
  predicate Replaces(fate: Fate, inner: Outcome) {
    fate in {AtOpenDir, AtSyncDir, Never} && inner == Stored
  }

  function Verdict(fate: Fate, inner: Outcome): Outcome {
    if fate in {AtMkdir, AtCreate, AtWrite, AtSync, AtClose, AtReadOld} then Failed
    else if inner != Stored then inner
    else if fate == AtRename then Failed
    else if fate in {AtOpenDir, AtSyncDir} then Uncertain
    else Stored
  }

  /** What the backup write of an overwrite reports; Stored when there is nothing to back up. */
  function BackupVerdict(backup: bool, hadOld: bool, inner: Fate): Outcome {
    if backup && hadOld then Verdict(inner, Stored) else Stored
  }

  /** An uncertain overwrite leaves the target in place exactly when the doubt is about the backup's own directory. */
  lemma UncertainWithoutReplacement(fate: Fate, inner: Fate)
    ensures Verdict(fate, Verdict(inner, Stored)) == Uncertain && !Replaces(fate, Verdict(inner, Stored)) <==>
      inner in {AtOpenDir, AtSyncDir} && fate in {AtRename, AtOpenDir, AtSyncDir, Never}
  {
  }

  // ---------- Each file-system step keeps the guard ----------

  lemma GuardTemp<C(!new)>(job: Job<C>, d: Disk<C>)
    requires Guarded(job, d)
    ensures Guarded(job, CreateTemp(d))
  {
    var e := CreateTemp(d);
    forall p ensures Exposed(e, Entry(p)) == Exposed(d, Entry(p)) {}
    SameExposure(job, d, e);
  }

  lemma GuardFile<C(!new)>(job: Job<C>, d: Disk<C>, inode: nat, f: File<C>)
    requires Guarded(job, d)
    requires inode < d.next && forall p :: Some(inode) !in Exposed(d, Entry(p))
    ensures Guarded(job, SetFile(d, inode, f))
    ensures forall p :: Some(inode) !in Exposed(SetFile(d, inode, f), Entry(p))
  {
    var e := SetFile(d, inode, f);
    forall p ensures Exposed(e, Entry(p)) == Exposed(d, Entry(p)) {}
    SameExposure(job, d, e);
  }

  lemma GuardRemoveTemp<C(!new)>(job: Job<C>, d: Disk<C>, k: nat)
    requires Guarded(job, d)
    ensures Guarded(job, Remove(d, Temp(k)))
  {
    var e := Remove(d, Temp(k));
    forall p ensures Exposed(e, Entry(p)) == Exposed(d, Entry(p)) {}
    SameExposure(job, d, e);
  }

  lemma SameExposure<C(!new)>(job: Job<C>, d: Disk<C>, e: Disk<C>)
    requires Guarded(job, d)
    requires forall p :: Exposed(e, Entry(p)) == Exposed(d, Entry(p))
    requires forall p, i :: Some(i) in Exposed(d, Entry(p)) ==> i in e.files && e.files[i] == d.files[i]
    requires e.next >= d.next && (forall i :: i in e.files ==> i < e.next) && (forall k: nat :: Temp(k) in e.entries ==> k < e.next)
    ensures Guarded(job, e)
  {
    forall p, x | MayHold(e, p, x)
      ensures MayHold(d, p, x)
    {
      var w :| w in Exposed(e, Entry(p)) && x == Bytes(e, w);
      assert w in Exposed(d, Entry(p)) && x == Bytes(d, w);
    }
  }

  lemma GuardRename<C(!new)>(job: Job<C>, d: Disk<C>, k: nat)
    requires Guarded(job, d)
    requires Temp(k) in d.entries && d.entries[Temp(k)] in d.files && d.files[d.entries[Temp(k)]] == File(Some(job.content), true)
    ensures Guarded(job, Rename(d, Temp(k), Entry(job.path)))
  {
    var e := Rename(d, Temp(k), Entry(job.path));
    var inode := d.entries[Temp(k)];
    forall p ensures Exposed(e, Entry(p)) == Exposed(d, Entry(p)) + (if p == job.path then {Some(inode)} else {}) {}
    forall p, x | MayHold(e, p, x)
      ensures MayHold(d, p, x) || (p == job.path && x == Some(job.content))
    {
      var w :| w in Exposed(e, Entry(p)) && x == Bytes(e, w);
      if w in Exposed(d, Entry(p)) { assert x == Bytes(d, w); }
    }
  }

  lemma GuardSyncDir<C(!new)>(job: Job<C>, d: Disk<C>)
    requires Guarded(job, d)
    ensures Guarded(job, SyncDir(d))
  {
    var e := SyncDir(d);
    forall p ensures Exposed(e, Entry(p)) <= Exposed(d, Entry(p)) {}
    forall p, x | MayHold(e, p, x)
      ensures MayHold(d, p, x)
    {
      var w :| w in Exposed(e, Entry(p)) && x == Bytes(e, w);
      assert w in Exposed(d, Entry(p)) && x == Bytes(d, w);
    }
  }

  /** A guarded write of the backup copy is a guarded step of the outer write. */
  lemma GuardNested<C(!new)>(job: Job<C>, mid: Disk<C>, kept: C, d: Disk<C>)
    requires Guarded(job, mid) && job.kept == Some(kept)
    requires Guarded(Job(mid, BackupName(job.path), kept, None), d)
    ensures Guarded(job, d)
  {
  }

  /** Crash atomicity: whatever step of a guarded write the crash interrupts, path afterwards holds a whole
      content it could already have held or the whole new one, and the backup name a whole earlier content. */
  lemma CrashShowsWholeContents<C(!new)>(job: Job<C>, d: Disk<C>, after: Disk<C>)
    requires Guarded(job, d)
    requires Crashes(d, after)
    ensures MayHold(job.start, job.path, Read(after, job.path)) || Read(after, job.path) == Some(job.content)
    ensures var b := BackupName(job.path);
      MayHold(job.start, b, Read(after, b)) || (job.kept.Some? && Read(after, b) == job.kept)
  {
    assert |BackupName(job.path)| != |job.path|;
    forall p ensures MayHold(d, p, Read(after, p)) {
      var e := Lookup(after, Entry(p));
      assert e in Exposed(d, Entry(p)) && Read(after, p) == Bytes(d, e);
    }
  }

  /** A crash of a clean disk leaves a clean disk, on which a name holds something it could hold before. */
  lemma CrashIsClean<C(!new)>(d: Disk<C>, after: Disk<C>, path: string)
    requires Clean(d) && Crashes(d, after)
    ensures Clean(after) && MayHold(d, path, Read(after, path))
  {
    forall p ensures Lookup(after, Entry(p)) in Exposed(d, Entry(p)) {}
    var e := Lookup(after, Entry(path));
    assert e in Exposed(d, Entry(path)) && Read(after, path) == Bytes(d, e);
  }

  ghost predicate IsTemp<C(!new)>(d: Disk<C>, k: nat) {
    Temp(k) in d.entries && d.entries[Temp(k)] == k
  }

  /** A disk reached from d by preparing temporary file d.next (and perhaps dropping it again). */
  ghost predicate Prepares<C(!new)>(job: Job<C>, d: Disk<C>, e: Disk<C>) {
    && Guarded(job, e)
    && AddsOnly(d, e)
    && d.next < e.next
    && (forall p :: Exposed(e, Entry(p)) == Exposed(d, Entry(p)))
    && (forall p :: Read(e, p) == Read(d, p))
  }

  lemma PrepareCreate<C(!new)>(job: Job<C>, d: Disk<C>)
    requires Guarded(job, d)
    ensures Prepares(job, d, CreateTemp(d))
    ensures IsTemp(CreateTemp(d), d.next)
  {
    GuardTemp(job, d);
  }

  lemma PrepareFile<C(!new)>(job: Job<C>, d: Disk<C>, e: Disk<C>, f: File<C>)
    requires Clean(d) && Prepares(job, d, e)
    ensures Prepares(job, d, SetFile(e, d.next, f))
  {
    forall p ensures Some(d.next) !in Exposed(e, Entry(p)) {
      assert Some(d.next) !in Exposed(d, Entry(p));
    }
    GuardFile(job, e, d.next, f);
  }

  lemma RenameFacts<C(!new)>(job: Job<C>, d: Disk<C>, k: nat)
    requires Clean(d) && Holds(d, k, job.content) && AddsOnly(job.start, d) && k >= job.start.next
    ensures var e := Rename(d, Temp(k), Entry(job.path));
      && AddsOnly(job.start, e) && AddsOnly(job.start, SyncDir(e))
      && Read(e, job.path) == Some(job.content)
      && forall q :: q != job.path ==> Read(e, q) == Read(d, q)
  {
  }

  /** Whatever path can hold on e after a crash, it could hold on d. */
  ghost predicate Exposes<C(!new)>(d: Disk<C>, e: Disk<C>, path: string) {
    forall x :: MayHold(e, path, x) ==> MayHold(d, path, x)
  }

  lemma PreparesExposes<C(!new)>(job: Job<C>, d: Disk<C>, e: Disk<C>, path: string)
    requires Clean(d) && Prepares(job, d, e)
    ensures Exposes(d, e, path)
  {
  }

  lemma ExposesTrans<C(!new)>(a: Disk<C>, b: Disk<C>, c: Disk<C>, path: string)
    requires Exposes(a, b, path) && Exposes(b, c, path)
    ensures Exposes(a, c, path)
  {
  }

  /** What the steps of a job do to the history: it grows, by guarded disks. */
  ghost predicate Progress<C(!new)>(job: Job<C>, before: seq<Disk<C>>, after: seq<Disk<C>>) {
    && |before| <= |after|
    && (forall i :: 0 <= i < |before| ==> after[i] == before[i])
    && (forall i :: |before| <= i < |after| ==> Guarded(job, after[i]))
  }

  class FileSystem<C(==,!new)> {
    var disk: Disk<C>
    /** Every disk the file system went through, newest last. */
    ghost var history: seq<Disk<C>>

    constructor ()
      ensures Clean(disk) && history == []
      ensures forall p :: Read(disk, p) == None
    {
      disk := Disk(map[], map[], map[], 0);
      history := [];
    }

    method Do(d: Disk<C>, ghost job: Job<C>)
      requires Guarded(job, d)
      modifies this
      ensures disk == d && Progress(job, old(history), history)
    {
      disk := d;
      history := history + [d];
    }

    method Create(ghost job: Job<C>) returns (k: nat)
      requires Guarded(job, disk)
      modifies this
      ensures k == old(disk).next && Prepares(job, old(disk), disk) && IsTemp(disk, k)
      ensures Progress(job, old(history), history)
    {
      k := disk.next;
      PrepareCreate(job, disk);
      Do(CreateTemp(disk), job);
    }

    method Put(k: nat, f: File<C>, ghost job: Job<C>, ghost start: Disk<C>)
      requires Clean(start) && Prepares(job, start, disk) && k == start.next && IsTemp(disk, k)
      modifies this
      ensures Prepares(job, start, disk) && IsTemp(disk, k) && k in disk.files && disk.files[k] == f
      ensures Progress(job, old(history), history)
    {
      PrepareFile(job, start, disk, f);
      Do(SetFile(disk, k, f), job);
    }

    /** Creates, fills, syncs and closes a temporary file; on failure it is removed again. */
    method WriteTemp(c: C, fate: Fate, ghost job: Job<C>) returns (ok: bool, k: nat)
      requires Guarded(job, disk) && job.start == disk
      modifies this
      ensures ok <==> fate !in {AtMkdir, AtCreate, AtWrite, AtSync, AtClose}
      ensures Progress(job, old(history), history)
      ensures Guarded(job, disk) && AddsOnly(job.start, disk)
      ensures forall q :: Read(disk, q) == Read(old(disk), q)
      ensures ok ==> k == job.start.next < disk.next && Holds(disk, k, c)
      ensures Exposes(old(disk), disk, job.path)
    {
      ghost var start := disk;
      ok, k := false, disk.next;
      if fate != AtMkdir && fate != AtCreate {
        k := Create(job);
        if fate != AtWrite {
          Put(k, File(Some(c), false), job, job.start);
          if fate != AtSync {
            Put(k, File(Some(c), true), job, job.start);
            ok := fate != AtClose;
          }
        }
        ghost var mid := disk;
        PreparesExposes(job, start, mid, job.path);
        if !ok {
          Discard(k, job);
          ExposesTrans(start, mid, disk, job.path);
        }
      }
    }

    method Discard(k: nat, ghost job: Job<C>)
      requires Guarded(job, disk)
      modifies this
      requires AddsOnly(job.start, disk) && k >= job.start.next
      ensures Guarded(job, disk) && Progress(job, old(history), history) && AddsOnly(job.start, disk)
      ensures forall q :: Read(disk, q) == Read(old(disk), q)
      ensures Exposes(old(disk), disk, job.path)
    {
      GuardRemoveTemp(job, disk, k);
      Do(Remove(disk, Temp(k)), job);
    }

    /** Copies the prior content of path to its backup name. */
    method Backup(path: string, previous: C, inner: Fate, ghost k: nat, ghost job: Job<C>) returns (r: Outcome)
      requires Guarded(job, disk) && inner != AtReadOld
      requires job.path == path && job.kept == Some(previous) && Holds(disk, k, job.content) && k < disk.next
      requires AddsOnly(job.start, disk)
      modifies this
      decreases false, 2
      ensures r == Verdict(inner, Stored)
      ensures r == Stored ==> Read(disk, BackupName(path)) == Some(previous)
      ensures Guarded(job, disk) && Progress(job, old(history), history)
      ensures AddsOnly(job.start, disk) && Holds(disk, k, job.content)
      ensures forall q :: q != BackupName(path) ==> Read(disk, q) == Read(old(disk), q)
      ensures Exposes(old(disk), disk, path)
    {
      ghost var mid, n := disk, |history|;
      r := AtomicWrite(BackupName(path), previous, false, inner, Never);
      GuardNested(job, mid, previous, disk);
      forall i | n <= i < |history| ensures Guarded(job, history[i]) { GuardNested(job, mid, previous, history[i]); }
    }

    /** Renames the complete temporary file k over path and syncs the directory. */
    method Install(path: string, k: nat, fate: Fate, ghost job: Job<C>) returns (r: Outcome)
      requires Guarded(job, disk) && job.path == path && Holds(disk, k, job.content)
      requires AddsOnly(job.start, disk) && k >= job.start.next
      requires fate in {AtRename, AtOpenDir, AtSyncDir, Never}
      modifies this
      ensures r == if fate == AtRename then Failed else if fate == Never then Stored else Uncertain
      ensures Read(disk, path) == if fate == AtRename then Read(old(disk), path) else Some(job.content)
      ensures forall q :: q != path ==> Read(disk, q) == Read(old(disk), q)
      ensures r == Failed ==> Exposes(old(disk), disk, path)
      ensures r == Stored ==> forall x :: MayHold(disk, path, x) ==> x == Some(job.content)
      ensures Guarded(job, disk) && Progress(job, old(history), history) && AddsOnly(job.start, disk)
    {
      if fate == AtRename {
        Discard(k, job);
        return Failed;
      }
      GuardRename(job, disk, k);
      RenameFacts(job, disk, k);
      Do(Rename(disk, Temp(k), Entry(path)), job);
      if fate == AtOpenDir || fate == AtSyncDir {
        return Uncertain;
      }
      GuardSyncDir(job, disk);
      Do(SyncDir(disk), job);
      r := Stored;
    }

    /** Backs up the prior content if there is one, and puts the complete temporary file k in its place. */
    method Replace(path: string, k: nat, backup: bool, fate: Fate, inner: Fate, ghost job: Job<C>) returns (r: Outcome)
      requires Guarded(job, disk) && job.path == path && Holds(disk, k, job.content) && k < disk.next
      requires AddsOnly(job.start, disk) && k >= job.start.next
      requires inner != AtReadOld && (fate == AtReadOld ==> backup)
      requires fate !in {AtMkdir, AtCreate, AtWrite, AtSync, AtClose}
      requires job.kept == if backup then Read(disk, path) else None
      modifies this
      decreases backup, 0
      ensures r == Verdict(fate, BackupVerdict(backup, Read(old(disk), path).Some?, inner))
      ensures Read(disk, path) ==
        if Replaces(fate, BackupVerdict(backup, Read(old(disk), path).Some?, inner)) then Some(job.content) else Read(old(disk), path)
      ensures r == Stored && backup && Read(old(disk), path).Some? ==> Read(disk, BackupName(path)) == Read(old(disk), path)
      ensures r == Stored ==> forall x :: MayHold(disk, path, x) ==> x == Some(job.content)
      ensures r == Failed ==> Exposes(old(disk), disk, path)
      ensures forall q :: q != path && (backup ==> q != BackupName(path)) ==> Read(disk, q) == Read(old(disk), q)
      ensures Guarded(job, disk) && Progress(job, old(history), history) && AddsOnly(job.start, disk)
    {
      assert |BackupName(path)| != |path|;
      ghost var filled := disk;
      var previous := Read(disk, path);
      r := Stored;
      if fate == AtReadOld {
        r := Failed;
      } else if backup && previous.Some? {
        r := Backup(path, previous.value, inner, k, job);
      }
      ghost var ready := disk;
      if r == Stored {
        r := Install(path, k, fate, job);
      } else {
        Discard(k, job);
      }
      if r == Failed { ExposesTrans(filled, ready, disk, path); }
    }

    /** Gives path the content c, keeping the prior file until the replacement is synced. `fate` and `inner`
        are the steps that fail in this write and in the write of the backup copy. */
    method AtomicWrite(path: string, c: C, backup: bool, fate: Fate, inner: Fate) returns (r: Outcome)
      requires Clean(disk)
      requires inner != AtReadOld && (fate == AtReadOld ==> backup)
      modifies this
      decreases backup, 1
      ensures r == Verdict(fate, BackupVerdict(backup, Read(old(disk), path).Some?, inner))
      ensures Read(disk, path) ==
        if Replaces(fate, BackupVerdict(backup, Read(old(disk), path).Some?, inner)) then Some(c) else Read(old(disk), path)
      ensures r == Stored && backup && Read(old(disk), path).Some? ==> Read(disk, BackupName(path)) == Read(old(disk), path)
      ensures r == Stored ==> forall x :: MayHold(disk, path, x) ==> x == Some(c)
      ensures r == Failed ==> Exposes(old(disk), disk, path)
      ensures forall q :: q != path && (backup ==> q != BackupName(path)) ==> Read(disk, q) == Read(old(disk), q)
      ensures AddsOnly(old(disk), disk)
      ensures var job := Job(old(disk), path, c, if backup then Read(old(disk), path) else None);
        Guarded(job, disk) && Progress(job, old(history), history)
    {
      ghost var job := Job(disk, path, c, if backup then Read(disk, path) else None);
      var ok, k := WriteTemp(c, fate, job);
      ghost var filled := disk;
      r := Failed;
      if ok {
        r := Replace(path, k, backup, fate, inner, job);
        if r == Failed { ExposesTrans(job.start, filled, disk, path); }
      }
    }
  }
}
