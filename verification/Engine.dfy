/** The proxy process and the record the node keeps of it: hot updates by RPCs whose failures are
    ambiguous, restarts that fall back to the recorded table, and the counters of each process generation. */
module Engine {
  import opened Options
  import opened NodeTypes

  type Accounts = map<string, Account>

  /** How one launch of the process ends. */
  datatype StartFate = NotLaunched | Exited | NotReady | Ready

  /** How one user RPC ends: answered, or an error with or without effect. */
  datatype RpcFate = Answered | ErrorAfterEffect | ErrorWithoutEffect

  datatype ApplyFate = ApplyFate(
    exited: bool, start: StartFate, fallback: StartFate, restore: StartFate, restoreFallback: StartFate, rpc: nat -> RpcFate)

  predicate SameSkeleton(a: seq<Live>, b: seq<Live>) {
    |a| == |b| && forall i :: 0 <= i < |a| ==> a[i].(users := map[]) == b[i].(users := map[])
  }

  // ---------- The update RPCs ----------

  /** Sets (Some) or removes (None) one user of inbound j. */
  datatype Op = Op(j: nat, email: string, account: Option<Account>)

  function WithUser(users: Accounts, email: string, account: Option<Account>): Accounts {
    if account.Some? then users[email := account.value] else users - {email}
  }

  /** The process finds the inbound of an RPC by its tag. */
  function Alter(t: seq<Live>, tag: string, email: string, account: Option<Account>): seq<Live> {
    seq(|t|, i requires 0 <= i < |t| => if t[i].tag == tag then t[i].(users := WithUser(t[i].users, email, account)) else t[i])
  }

  /** The node's record is updated by position. */
  function Put(t: seq<Live>, op: Op): seq<Live>
    requires op.j < |t|
  {
    t[op.j := t[op.j].(users := WithUser(t[op.j].users, op.email, op.account))]
  }

  lemma AlterIsPut(t: seq<Live>, op: Op)
    requires op.j < |t| && UniqueTags(t)
    ensures Alter(t, t[op.j].tag, op.email, op.account) == Put(t, op)
  {
  }

  predicate InRange(t: seq<Live>, ops: seq<Op>) { forall i :: 0 <= i < |ops| ==> ops[i].j < |t| }

  function Replay(t: seq<Live>, ops: seq<Op>): (r: seq<Live>)
    requires InRange(t, ops)
    ensures |r| == |t|
  {
    if ops == [] then t else Put(Replay(t, ops[..|ops| - 1]), ops[|ops| - 1])
  }

  function UserAt(t: seq<Live>, j: nat, email: string): Option<Account>
    requires j < |t|
  {
    if email in t[j].users then Some(t[j].users[email]) else None
  }

  lemma {:induction false} ReplaySkeleton(t: seq<Live>, ops: seq<Op>)
    requires InRange(t, ops)
    ensures SameSkeleton(t, Replay(t, ops))
  {
    if ops != [] { ReplaySkeleton(t, ops[..|ops| - 1]); }
  }

  /** The RPCs a hot update from prev to next may send. */
  predicate Wanted(prev: seq<Live>, next: seq<Live>, op: Op)
    requires |prev| == |next|
  {
    && op.j < |prev|
    && UserAt(prev, op.j, op.email) != UserAt(next, op.j, op.email)
    && (op.account.None? ==> UserAt(prev, op.j, op.email).Some?)
    && (op.account.Some? ==> op.account == UserAt(next, op.j, op.email))
  }

  function Stage(op: Op): nat { 2 * op.j + if op.account.Some? then 1 else 0 }

  /** RPCs sent so far: each wanted, none twice, inbound by inbound, removals before additions. */
  ghost predicate Legal(prev: seq<Live>, next: seq<Live>, ops: seq<Op>)
    requires |prev| == |next|
  {
    && (forall i :: 0 <= i < |ops| ==> Wanted(prev, next, ops[i]))
    && (forall i, k :: 0 <= i < k < |ops| ==> ops[i] != ops[k] && Stage(ops[i]) <= Stage(ops[k]))
  }

  ghost predicate Complete(prev: seq<Live>, next: seq<Live>, ops: seq<Op>)
    requires |prev| == |next|
  {
    forall op :: Wanted(prev, next, op) ==> op in ops
  }

  lemma PutAt(t: seq<Live>, op: Op, j: nat, email: string)
    requires op.j < |t| && j < |t|
    ensures UserAt(Put(t, op), j, email) == if op.j == j && op.email == email then op.account else UserAt(t, j, email)
  {
  }

  lemma LegalPrefix(prev: seq<Live>, next: seq<Live>, ops: seq<Op>, n: nat)
    requires |prev| == |next| && Legal(prev, next, ops) && n <= |ops|
    ensures Legal(prev, next, ops[..n]) && InRange(prev, ops)
  {
    forall i | 0 <= i < |ops| ensures ops[i].j < |prev| { assert Wanted(prev, next, ops[i]); }
  }

  /** What one user of the table should be once the RPCs ops have taken effect. */
  function Expected(prev: seq<Live>, next: seq<Live>, ops: seq<Op>, j: nat, email: string): Option<Account>
    requires j < |prev| == |next|
  {
    var want := UserAt(next, j, email);
    if want.Some? && Op(j, email, want) in ops then want
    else if Op(j, email, None) in ops then None
    else UserAt(prev, j, email)
  }

  lemma ExpectedStep(prev: seq<Live>, next: seq<Live>, rest: seq<Op>, op: Op, j: nat, email: string)
    requires j < |prev| == |next| && Legal(prev, next, rest + [op])
    ensures Expected(prev, next, rest + [op], j, email) ==
      if op.j == j && op.email == email then op.account else Expected(prev, next, rest, j, email)
  {
    var ops := rest + [op];
    assert forall x :: x in ops <==> x in rest || x == op;
    var add := Op(j, email, UserAt(next, j, email));
    if op.j == j && op.email == email {
      assert ops[|rest|] == op && Wanted(prev, next, op);
      if op.account.None? && add.account.Some? {
        forall i | 0 <= i < |rest| ensures rest[i] != add {
          assert ops[i] == rest[i];
          assert Stage(ops[i]) <= Stage(ops[|rest|]) < Stage(add);
        }
      }
    }
  }

  /** What one user of the table is after the first RPCs. */
  lemma {:induction false} UserAfter(prev: seq<Live>, next: seq<Live>, ops: seq<Op>, j: nat, email: string)
    requires |prev| == |next| && Legal(prev, next, ops) && j < |prev|
    ensures InRange(prev, ops) && UserAt(Replay(prev, ops), j, email) == Expected(prev, next, ops, j, email)
  {
    LegalPrefix(prev, next, ops, |ops|);
    if ops != [] {
      var n := |ops| - 1;
      var rest := ops[..n];
      LegalPrefix(prev, next, ops, n);
      UserAfter(prev, next, rest, j, email);
      PutAt(Replay(prev, rest), ops[n], j, email);
      assert ops == rest + [ops[n]];
      ExpectedStep(prev, next, rest, ops[n], j, email);
    }
  }

  /** A table between prev and next: users the two agree on are as they were, and every account comes from one of them. */
  ghost predicate Between(prev: seq<Live>, next: seq<Live>, t: seq<Live>)
    requires |prev| == |next|
  {
    && SameSkeleton(prev, t)
    && forall j, email :: 0 <= j < |t| ==>
         && (UserAt(prev, j, email) == UserAt(next, j, email) ==> UserAt(t, j, email) == UserAt(prev, j, email))
         && UserAt(t, j, email) in {UserAt(prev, j, email), UserAt(next, j, email), None}
  }

  lemma NotWanted(prev: seq<Live>, next: seq<Live>, ops: seq<Op>, op: Op)
    requires |prev| == |next| && Legal(prev, next, ops) && op in ops
    ensures Wanted(prev, next, op)
  {
  }

  /** Whatever RPCs of a hot update have taken effect, the table is between the prev and the new one. */
  lemma HotStaysBetween(prev: seq<Live>, next: seq<Live>, ops: seq<Op>)
    requires SameSkeleton(prev, next) && Legal(prev, next, ops)
    ensures InRange(prev, ops) && Between(prev, next, Replay(prev, ops))
  {
    LegalPrefix(prev, next, ops, |ops|);
    ReplaySkeleton(prev, ops);
    forall j, email | 0 <= j < |prev|
      ensures UserAt(prev, j, email) == UserAt(next, j, email) ==> UserAt(Replay(prev, ops), j, email) == UserAt(prev, j, email)
      ensures UserAt(Replay(prev, ops), j, email) in {UserAt(prev, j, email), UserAt(next, j, email), None}
    {
      UserAfter(prev, next, ops, j, email);
      if Op(j, email, None) in ops { NotWanted(prev, next, ops, Op(j, email, None)); }
      if Op(j, email, UserAt(next, j, email)) in ops { NotWanted(prev, next, ops, Op(j, email, UserAt(next, j, email))); }
    }
  }

  /** When every wanted RPC has taken effect the table is the new one. */
  lemma HotReachesNext(prev: seq<Live>, next: seq<Live>, ops: seq<Op>)
    requires SameSkeleton(prev, next) && Legal(prev, next, ops) && Complete(prev, next, ops)
    ensures InRange(prev, ops) && Replay(prev, ops) == next
  {
    LegalPrefix(prev, next, ops, |ops|);
    ReplaySkeleton(prev, ops);
    var t := Replay(prev, ops);
    forall j | 0 <= j < |t|
      ensures t[j] == next[j]
    {
      forall email
        ensures UserAt(t, j, email) == UserAt(next, j, email)
      {
        UserAfter(prev, next, ops, j, email);
        if UserAt(prev, j, email) != UserAt(next, j, email) {
          if UserAt(next, j, email).Some? {
            assert Wanted(prev, next, Op(j, email, UserAt(next, j, email)));
          } else {
            assert Wanted(prev, next, Op(j, email, None));
          }
        }
      }
      assert t[j].users == next[j].users by {
        forall email
          ensures email in t[j].users <==> email in next[j].users
          ensures email in t[j].users ==> t[j].users[email] == next[j].users[email]
        { assert UserAt(t, j, email) == UserAt(next, j, email); }
      }
      assert t[j].(users := map[]) == next[j].(users := map[]);
    }
  }

  // ---------- How many RPCs a hot update sends ----------

  type Seat = (nat, string)

  function Gone(prev: seq<Live>, next: seq<Live>): set<Seat>
    requires |prev| == |next|
  {
    set j, email | 0 <= j < |prev| && email in prev[j].users && email !in next[j].users :: (j as nat, email)
  }

  function Added(prev: seq<Live>, next: seq<Live>): set<Seat>
    requires |prev| == |next|
  {
    set j, email | 0 <= j < |next| && email in next[j].users && email !in prev[j].users :: (j as nat, email)
  }

  function Changed(prev: seq<Live>, next: seq<Live>): set<Seat>
    requires |prev| == |next|
  {
    set j, email | 0 <= j < |prev| && email in prev[j].users && email in next[j].users
      && prev[j].users[email] != next[j].users[email] :: (j as nat, email)
  }

  lemma {:induction false} DistinctCard<T>(xs: seq<T>)
    requires forall i, k :: 0 <= i < k < |xs| ==> xs[i] != xs[k]
    ensures |set x | x in xs| == |xs|
  {
    if xs != [] {
      var n := |xs| - 1;
      var rest := xs[..n];
      DistinctCard(rest);
      assert (set x | x in xs) == (set x | x in rest) + {xs[n]};
    }
  }

  lemma {:induction false} ImageCard(seats: set<Seat>, f: Seat -> Op)
    requires forall a, b :: a in seats && b in seats && f(a) == f(b) ==> a == b
    ensures |set p | p in seats :: f(p)| == |seats|
  {
    if seats != {} {
      var p :| p in seats;
      ImageCard(seats - {p}, f);
      assert (set q | q in seats :: f(q)) == (set q | q in seats - {p} :: f(q)) + {f(p)};
    }
  }

  function RemoveAt(p: Seat): Op { Op(p.0, p.1, None) }

  function AddAt(next: seq<Live>, p: Seat): Op { Op(p.0, p.1, if p.0 < |next| then UserAt(next, p.0, p.1) else None) }

  function Removals(prev: seq<Live>, next: seq<Live>): set<Op>
    requires |prev| == |next|
  {
    set p | p in Gone(prev, next) + Changed(prev, next) :: RemoveAt(p)
  }

  function Additions(prev: seq<Live>, next: seq<Live>): set<Op>
    requires |prev| == |next|
  {
    set p | p in Added(prev, next) + Changed(prev, next) :: AddAt(next, p)
  }

  lemma WantedIsRemoval(prev: seq<Live>, next: seq<Live>, op: Op)
    requires |prev| == |next| && op.account.None?
    ensures Wanted(prev, next, op) <==> op in Removals(prev, next)
    ensures op !in Additions(prev, next)
  {
    var p := (op.j, op.email);
    assert op == RemoveAt(p);
    if Wanted(prev, next, op) { assert p in Gone(prev, next) + Changed(prev, next); }
  }

  lemma WantedIsAddition(prev: seq<Live>, next: seq<Live>, op: Op)
    requires |prev| == |next| && op.account.Some?
    ensures Wanted(prev, next, op) <==> op in Additions(prev, next)
    ensures op !in Removals(prev, next)
  {
    var p := (op.j, op.email);
    if Wanted(prev, next, op) { assert p in Added(prev, next) + Changed(prev, next) && op == AddAt(next, p); }
  }

  lemma SentOps(prev: seq<Live>, next: seq<Live>, ops: seq<Op>)
    requires |prev| == |next| && Legal(prev, next, ops) && Complete(prev, next, ops)
    ensures (set x | x in ops) == Removals(prev, next) + Additions(prev, next)
    ensures Removals(prev, next) !! Additions(prev, next)
  {
    forall op
      ensures op in (set x | x in ops) <==> op in Removals(prev, next) + Additions(prev, next)
      ensures !(op in Removals(prev, next) && op in Additions(prev, next))
    {
      if op in ops { NotWanted(prev, next, ops, op); }
      if op.account.None? { WantedIsRemoval(prev, next, op); } else { WantedIsAddition(prev, next, op); }
    }
  }

  lemma RemovalCard(prev: seq<Live>, next: seq<Live>)
    requires |prev| == |next|
    ensures |Removals(prev, next)| == |Gone(prev, next)| + |Changed(prev, next)|
  {
    var seats := Gone(prev, next) + Changed(prev, next);
    assert |seats| == |Gone(prev, next)| + |Changed(prev, next)| by { assert Gone(prev, next) !! Changed(prev, next); }
    var remove := p => RemoveAt(p);
    ImageCard(seats, remove);
    assert Removals(prev, next) == set p | p in seats :: remove(p);
  }

  lemma AdditionCard(prev: seq<Live>, next: seq<Live>)
    requires |prev| == |next|
    ensures |Additions(prev, next)| == |Added(prev, next)| + |Changed(prev, next)|
  {
    var seats := Added(prev, next) + Changed(prev, next);
    assert |seats| == |Added(prev, next)| + |Changed(prev, next)| by { assert Added(prev, next) !! Changed(prev, next); }
    var add := p => AddAt(next, p);
    ImageCard(seats, add);
    assert Additions(prev, next) == set p | p in seats :: add(p);
  }

  /** A complete hot update sends one RPC per user removed, one per user added and two per user changed. */
  lemma HotRpcCount(prev: seq<Live>, next: seq<Live>, ops: seq<Op>)
    requires |prev| == |next| && Legal(prev, next, ops) && Complete(prev, next, ops)
    ensures |ops| == |Gone(prev, next)| + |Added(prev, next)| + 2 * |Changed(prev, next)|
  {
    DistinctCard(ops);
    SentOps(prev, next, ops);
    RemovalCard(prev, next);
    AdditionCard(prev, next);
  }

  // ---------- Launches, restarts and what Apply can do ----------

  /** The table of the running process, the recorded table, and how many processes were launched. */
  datatype CoreState = CoreState(proc: Option<seq<Live>>, live: seq<Live>, generation: nat)

  ghost predicate Coherent(c: CoreState) { c.proc.Some? ==> c.proc.value == c.live }

  function Halt(c: CoreState): CoreState { c.(proc := None) }

  function Launch(c: CoreState, next: seq<Live>, fate: StartFate): CoreState {
    match fate
    case NotLaunched => c
    case Exited => CoreState(None, c.live, c.generation + 1)
    case NotReady => CoreState(Some(next), c.live, c.generation + 1)
    case Ready => CoreState(Some(next), next, c.generation + 1)
  }

  /** Restarting on next, falling back to the recorded table. */
  function Restarted(c: CoreState, next: seq<Live>, first: StartFate, second: StartFate): (CoreState, bool) {
    var a := Launch(Halt(c), next, first);
    if first == Ready then (a, true)
    else
      var b := Launch(Halt(a), c.live, second);
      (if second == Ready then b else Halt(b), false)
  }

  /** A hot update that sent exactly the RPCs ops; all were answered if ok, all but the last otherwise. */
  ghost predicate HotOutcome(c: CoreState, next: seq<Live>, ops: seq<Op>, ok: bool, post: CoreState) {
    && |c.live| == |next| && Legal(c.live, next, ops) && InRange(c.live, ops)
    && post.generation == c.generation
    && if ok then
         Complete(c.live, next, ops) && post.live == Replay(c.live, ops) && post.proc == Some(Replay(c.live, ops))
       else
         && |ops| > 0
         && InRange(c.live, ops[..|ops| - 1])
         && post.live == Replay(c.live, ops[..|ops| - 1])
         && post.proc in {Some(Replay(c.live, ops)), Some(Replay(c.live, ops[..|ops| - 1]))}
  }

  /** Undoing a failed hot update by a restart on the table recorded before it. */
  function Restored(mid: CoreState, recorded: seq<Live>, third: StartFate, fourth: StartFate): CoreState {
    var (r, ok) := Restarted(mid, recorded, third, fourth);
    if ok then r else Halt(r)
  }

  /** All that Apply(next) can do from c. */
  ghost predicate Applies(c: CoreState, next: seq<Live>, ok: bool, post: CoreState) {
    if c.proc.None? || !SameSkeleton(c.live, next) then
      exists first, second :: (post, ok) == Restarted(c, next, first, second)
    else
      exists ops, mid :: HotOutcome(c, next, ops, ok, mid) &&
        if ok then post == mid else exists third, fourth :: post == Restored(mid, c.live, third, fourth)
  }

  /** What an Apply that ended in post may claim. */
  ghost predicate Safe(c: CoreState, next: seq<Live>, ok: bool, post: CoreState) {
    && Coherent(post) && post.generation >= c.generation
    && (ok ==> post.proc == Some(next) && post.live == next)
    && (!ok ==> post.proc.None? || (post.proc == Some(c.live) && post.live == c.live && post.generation > c.generation))
    && (ok && post.generation == c.generation ==> c.proc.Some? && SameSkeleton(c.live, next))
  }

  lemma RestoreIsSafe(c: CoreState, next: seq<Live>, mid: CoreState, third: StartFate, fourth: StartFate)
    requires mid.generation == c.generation
    ensures Safe(c, next, false, Restored(mid, c.live, third, fourth))
  {
  }

  /** Apply's safety: nil means the process and the record are the new table; an error means the
      process is stopped or runs exactly the table recorded at entry. */
  lemma ApplyIsSafe(c: CoreState, next: seq<Live>, ok: bool, post: CoreState)
    requires Coherent(c) && Applies(c, next, ok, post)
    ensures Safe(c, next, ok, post)
  {
    if !(c.proc.None? || !SameSkeleton(c.live, next)) {
      var ops, mid :| HotOutcome(c, next, ops, ok, mid) &&
        if ok then post == mid else exists third, fourth :: post == Restored(mid, c.live, third, fourth);
      if ok {
        HotReachesNext(c.live, next, ops);
      } else {
        var third, fourth :| post == Restored(mid, c.live, third, fourth);
        RestoreIsSafe(c, next, mid, third, fourth);
      }
    }
  }

  /** A failed Apply on a stopped engine leaves a process running exactly when the fallback came up,
      and that process serves the recorded table, whoever asked for it. */
  lemma FallbackServesTheRecord(c: CoreState, next: seq<Live>, first: StartFate, second: StartFate)
    requires c.proc.None? && first != Ready
    ensures var (post, ok) := Restarted(c, next, first, second);
      !ok && (post.proc.Some? <==> second == Ready) && (second == Ready ==> post.proc == Some(c.live))
  {
  }

  /** The record of a stopped engine can be a table whose edit was rolled back: from a process on t0, an
      edit to t1 succeeds, its rollback to t0 meets a dead RPC and restores t1, the caller stops the engine,
      and a later recovery to t0 that cannot start falls back to t1. */
  lemma RolledBackTableCanReturn(t0: seq<Live>, t1: seq<Live>, op: Op) returns (c2: CoreState, c3: CoreState, c4: CoreState)
    requires SameSkeleton(t0, t1) && t0 != t1 && Legal(t0, t1, [op]) && Complete(t0, t1, [op])
    ensures Applies(CoreState(Some(t0), t0, 1), t1, true, c2)
    ensures Applies(c2, t0, false, c3)
    ensures Applies(Halt(c3), t0, false, c4) && c4.proc == Some(t1)
  {
    var c1 := CoreState(Some(t0), t0, 1);
    c2 := CoreState(Some(t1), t1, 1);
    LegalPrefix(t0, t1, [op], 1);
    HotReachesNext(t0, t1, [op]);
    assert HotOutcome(c1, t1, [op], true, c2);
    var undo := if UserAt(t1, op.j, op.email).Some? then Op(op.j, op.email, None) else Op(op.j, op.email, UserAt(t0, op.j, op.email));
    assert Wanted(t0, t1, [op][0]);
    assert Legal(t1, t0, [undo]) && InRange(t1, [undo]);
    assert [undo][..0] == [];
    var mid := CoreState(Some(t1), t1, 1);
    assert HotOutcome(c2, t0, [undo], false, mid);
    c3 := Restored(mid, t1, Ready, Ready);
    assert Applies(c2, t0, false, c3);
    c4 := Restarted(Halt(c3), t0, NotReady, Ready).0;
    assert (c4, false) == Restarted(Halt(c3), t0, NotReady, Ready);
    assert Applies(Halt(c3), t0, false, c4);
  }

  // ---------- Counters ----------

  type Counters = map<string, int>

  function Get(m: Counters, k: string): int { if k in m then m[k] else 0 }

  /** Counters of one process: never negative, and once reported they stay and do not shrink. */
  ghost predicate Grows(before: Counters, after: Counters) {
    && (forall k :: k in before ==> k in after && before[k] <= after[k])
    && (forall k :: k in after ==> after[k] >= 0)
  }

  function Plus(a: Counters, b: Counters): Counters { map k | k in a.Keys + b.Keys :: Get(a, k) + Get(b, k) }

  /** Bytes moved so far: `counters` by the latest process, `retired` by all earlier ones. */
  datatype Meter = Meter(generation: nat, counters: Counters, retired: Counters)

  ghost predicate NonNegative(m: Counters) { forall k :: k in m ==> m[k] >= 0 }

  /** Time passes: a process's counters grow; a new process starts at zero once the old one's are final. */
  ghost predicate Advances(a: Meter, b: Meter) {
    && a.generation <= b.generation
    && NonNegative(b.counters)
    && (a.generation == b.generation ==> Grows(a.counters, b.counters) && b.retired == a.retired)
    && (a.generation < b.generation ==> forall k :: Get(b.retired, k) >= Get(a.retired, k) + Get(a.counters, k))
  }

  lemma AdvancesTrans(a: Meter, b: Meter, c: Meter)
    requires Advances(a, b) && Advances(b, c)
    ensures Advances(a, c)
  {
    forall k ensures Get(b.counters, k) >= 0 {}
    if a.generation == b.generation { forall k ensures Get(b.counters, k) >= Get(a.counters, k) {} }
  }
}
