/** The node's handle on the proxy process. */
module XrayCore {
  import opened Options
  import opened NodeTypes
  import opened Engine

  /** ops extended by one more wanted RPC. */
  lemma Extend(prev: seq<Live>, next: seq<Live>, ops: seq<Op>, op: Op)
    requires |prev| == |next| && Legal(prev, next, ops) && InRange(prev, ops)
    requires Wanted(prev, next, op) && op !in ops && forall x :: x in ops ==> Stage(x) <= Stage(op)
    ensures Legal(prev, next, ops + [op]) && InRange(prev, ops + [op])
    ensures Replay(prev, ops + [op]) == Put(Replay(prev, ops), op)
    ensures (ops + [op])[..|ops|] == ops
  {
    var more := ops + [op];
    assert more[..|ops|] == ops;
    forall i, k | 0 <= i < k < |more| ensures more[i] != more[k] && Stage(more[i]) <= Stage(more[k]) {
      if k == |ops| { assert more[i] in ops; }
    }
  }

  /** The legal RPCs ops take prev to t. */
  ghost predicate Takes(prev: seq<Live>, next: seq<Live>, ops: seq<Op>, t: seq<Live>) {
    |prev| == |next| == |t| && Legal(prev, next, ops) && InRange(prev, ops) && t == Replay(prev, ops)
  }

  /** The RPCs due before this stage are done. */
  ghost predicate DoneBefore(prev: seq<Live>, next: seq<Live>, ops: seq<Op>, stage: nat) {
    |prev| == |next| && forall op {:trigger Wanted(prev, next, op)} :: Wanted(prev, next, op) && Stage(op) < stage ==> op in ops
  }

  /** No RPC of a later stage has been sent. */
  ghost predicate NonePast(ops: seq<Op>, stage: nat) {
    forall op {:trigger op in ops} :: op in ops ==> Stage(op) <= stage
  }

  /** The tables differ only in users. */
  ghost predicate Fits(prev: seq<Live>, next: seq<Live>) {
    SameSkeleton(prev, next) && UniqueTags(next)
  }

  /** Within a stage: the users still to be looked at, and the RPCs sent for the others. */
  ghost predicate Due(prev: seq<Live>, next: seq<Live>, ops: seq<Op>, stage: nat, todo: set<string>) {
    && |prev| == |next|
    && (forall op {:trigger op in ops} :: op in ops && Stage(op) == stage ==> op.email !in todo)
    && (forall op {:trigger Wanted(prev, next, op)} ::
         Wanted(prev, next, op) && Stage(op) == stage && op.email !in todo ==> op in ops)
  }

  /** A hot update from the table prev that broke off at its last RPC. */
  ghost predicate BrokenOff(prev: seq<Live>, next: seq<Live>, ops: seq<Op>, post: CoreState) {
    HotOutcome(CoreState(Some(prev), prev, post.generation), next, ops, false, post)
  }

  lemma SameTags(prev: seq<Live>, next: seq<Live>, t: seq<Live>)
    requires SameSkeleton(prev, next) && SameSkeleton(prev, t) && UniqueTags(next)
    ensures UniqueTags(t)
  {
    forall i | 0 <= i < |t| ensures t[i].tag == next[i].tag {
      assert t[i].(users := map[]) == prev[i].(users := map[]) == next[i].(users := map[]);
    }
  }

  lemma TakesTags(prev: seq<Live>, next: seq<Live>, ops: seq<Op>, t: seq<Live>)
    requires Fits(prev, next) && Takes(prev, next, ops, t)
    ensures |prev| == |next| == |t| && UniqueTags(t)
  {
    ReplaySkeleton(prev, ops);
    SameTags(prev, next, t);
  }

  lemma TakesOn(prev: seq<Live>, next: seq<Live>, ops: seq<Op>, op: Op, t: seq<Live>)
    requires |prev| == |next| == |t| && Takes(prev, next, ops, t) && NonePast(ops, Stage(op))
    requires Wanted(prev, next, op) && op !in ops
    ensures Takes(prev, next, ops + [op], Put(t, op)) && NonePast(ops + [op], Stage(op))
  {
    Extend(prev, next, ops, op);
  }

  lemma BreaksOff(prev: seq<Live>, next: seq<Live>, ops: seq<Op>, op: Op, t: seq<Live>, c: CoreState)
    requires |prev| == |next| == |t| && Takes(prev, next, ops, t) && NonePast(ops, Stage(op))
    requires Wanted(prev, next, op) && op !in ops
    requires c.live == t && c.proc in {Some(t), Some(Put(t, op))}
    ensures BrokenOff(prev, next, ops + [op], c)
  {
    Extend(prev, next, ops, op);
  }

  lemma DoneOn(prev: seq<Live>, next: seq<Live>, ops: seq<Op>, stage: nat, op: Op)
    requires DoneBefore(prev, next, ops, stage)
    ensures DoneBefore(prev, next, ops + [op], stage)
  {
    forall x | Wanted(prev, next, x) && Stage(x) < stage ensures x in ops + [op] { assert x in ops; }
  }

  /** A stage has at most one RPC for each user. */
  lemma OnePerUser(prev: seq<Live>, next: seq<Live>, op: Op, x: Op)
    requires op.j < |prev| == |next| && op.account in {None, UserAt(next, op.j, op.email)}
    requires Wanted(prev, next, x) && Stage(x) == Stage(op) && x.email == op.email
    ensures x == op
  {
  }

  lemma NotYetSent(prev: seq<Live>, next: seq<Live>, ops: seq<Op>, stage: nat, todo: set<string>, op: Op)
    requires Due(prev, next, ops, stage, todo) && Stage(op) == stage && op.email in todo
    ensures op !in ops
  {
  }

  lemma DueOn(prev: seq<Live>, next: seq<Live>, ops: seq<Op>, stage: nat, todo: set<string>, op: Op)
    requires |prev| == |next| && Due(prev, next, ops, stage, todo) && Stage(op) == stage && op.email in todo
    requires op.j < |next| && op.account in {None, UserAt(next, op.j, op.email)}
    ensures Due(prev, next, ops + [op], stage, todo - {op.email})
  {
    forall x | Wanted(prev, next, x) && Stage(x) == stage && x.email !in todo - {op.email} ensures x in ops + [op] {
      if x.email == op.email { OnePerUser(prev, next, op, x); } else { assert x in ops; }
    }
  }

  lemma DueSkip(prev: seq<Live>, next: seq<Live>, ops: seq<Op>, stage: nat, todo: set<string>, op: Op)
    requires |prev| == |next| && Due(prev, next, ops, stage, todo) && Stage(op) == stage && op.email in todo
    requires op.j < |next| && op.account in {None, UserAt(next, op.j, op.email)} && !Wanted(prev, next, op)
    ensures Due(prev, next, ops, stage, todo - {op.email})
  {
    forall x | Wanted(prev, next, x) && Stage(x) == stage && x.email !in todo - {op.email} ensures x in ops {
      if x.email == op.email { OnePerUser(prev, next, op, x); }
    }
  }

  lemma DueFirst(prev: seq<Live>, next: seq<Live>, ops: seq<Op>, stage: nat, todo: set<string>)
    requires |prev| == |next| && stage / 2 < |next| && (stage > 0 ==> NonePast(ops, stage - 1)) && (stage == 0 ==> ops == [])
    requires todo == (if stage % 2 == 0 then prev else next)[stage / 2].users.Keys
    ensures Due(prev, next, ops, stage, todo)
  {
    forall op | Wanted(prev, next, op) && Stage(op) == stage ensures op.email in todo {
      assert op.j == stage / 2;
    }
  }

  /** When every user of a stage has been looked at, the stage is done. */
  lemma StageDone(prev: seq<Live>, next: seq<Live>, ops: seq<Op>, stage: nat)
    requires DoneBefore(prev, next, ops, stage) && Due(prev, next, ops, stage, {})
    ensures DoneBefore(prev, next, ops, stage + 1)
  {
  }

  lemma UserNow(prev: seq<Live>, next: seq<Live>, ops: seq<Op>, t: seq<Live>, j: nat, email: string)
    requires j < |prev| == |next| == |t| && Takes(prev, next, ops, t)
    ensures UserAt(t, j, email) == Expected(prev, next, ops, j, email)
  {
    UserAfter(prev, next, ops, j, email);
  }

  /** A user of inbound j still to be looked at must be removed exactly when it differs from the new table's. */
  lemma StaleIsWanted(prev: seq<Live>, next: seq<Live>, ops: seq<Op>, t: seq<Live>, j: nat, todo: set<string>, email: string)
    requires j < |prev| == |next| == |t| && Takes(prev, next, ops, t)
    requires NonePast(ops, 2 * j) && Due(prev, next, ops, 2 * j, todo) && email in todo
    ensures UserAt(t, j, email) == UserAt(prev, j, email)
  {
    UserNow(prev, next, ops, t, j, email);
    NotYetSent(prev, next, ops, 2 * j, todo, Op(j, email, None));
    var add := Op(j, email, UserAt(next, j, email));
    assert add in ops ==> Stage(add) <= 2 * j;
  }

  lemma RemovalSent(prev: seq<Live>, next: seq<Live>, ops: seq<Op>, j: nat, email: string)
    requires j < |prev| == |next| && DoneBefore(prev, next, ops, 2 * j + 1) && Wanted(prev, next, Op(j, email, None))
    ensures Op(j, email, None) in ops
  {
    assert Stage(Op(j, email, None)) < 2 * j + 1;
  }

  lemma RemovalWasWanted(prev: seq<Live>, next: seq<Live>, ops: seq<Op>, t: seq<Live>, op: Op)
    requires |prev| == |next| && Takes(prev, next, ops, t) && op in ops
    ensures Wanted(prev, next, op)
  {
    NotWanted(prev, next, ops, op);
  }

  /** Once removals are done, the process lacks exactly the accounts that are still to be added. */
  lemma MissingIsWanted(prev: seq<Live>, next: seq<Live>, ops: seq<Op>, t: seq<Live>, j: nat, todo: set<string>, email: string)
    requires j < |prev| == |next| == |t| && Takes(prev, next, ops, t) && DoneBefore(prev, next, ops, 2 * j + 1)
    requires Due(prev, next, ops, 2 * j + 1, todo) && email in todo && email in next[j].users
    ensures UserAt(t, j, email) != UserAt(next, j, email) <==> Wanted(prev, next, Op(j, email, UserAt(next, j, email)))
  {
    var remove := Op(j, email, None);
    NotYetSent(prev, next, ops, 2 * j + 1, todo, Op(j, email, UserAt(next, j, email)));
    UserNow(prev, next, ops, t, j, email);
    if remove in ops { RemovalWasWanted(prev, next, ops, t, remove); }
    if Wanted(prev, next, remove) { RemovalSent(prev, next, ops, j, email); }
  }

  /** Before anything was sent for inbound j, the process has the prior table's users there. */
  lemma StageBegins(prev: seq<Live>, next: seq<Live>, ops: seq<Op>, t: seq<Live>, j: nat)
    requires j < |prev| == |next| == |t| && Takes(prev, next, ops, t)
    requires if j > 0 then NonePast(ops, 2 * j - 1) else ops == []
    ensures t[j].users.Keys == prev[j].users.Keys
  {
    forall email ensures email in t[j].users <==> email in prev[j].users {
      UserNow(prev, next, ops, t, j, email);
      var add := Op(j, email, UserAt(next, j, email));
      assert add in ops ==> Stage(add) <= 2 * j - 1;
      var remove := Op(j, email, None);
      assert remove in ops ==> Stage(remove) <= 2 * j - 1;
      assert UserAt(t, j, email) == UserAt(prev, j, email);
    }
  }

  lemma TakenToEnd(prev: seq<Live>, next: seq<Live>, ops: seq<Op>, t: seq<Live>, generation: nat)
    requires Takes(prev, next, ops, t) && DoneBefore(prev, next, ops, 2 * |next|)
    ensures HotOutcome(CoreState(Some(prev), prev, generation), next, ops, true, CoreState(Some(t), t, generation))
  {
    forall op | Wanted(prev, next, op) ensures op in ops { assert Stage(op) < 2 * |next|; }
  }

  lemma HotApplies(c: CoreState, next: seq<Live>, ops: seq<Op>, ok: bool, mid: CoreState, third: StartFate, fourth: StartFate)
    requires c.proc.Some? && SameSkeleton(c.live, next) && HotOutcome(c, next, ops, ok, mid)
    ensures Applies(c, next, ok, if ok then mid else Restored(mid, c.live, third, fourth))
  {
  }

  /** Every RPC is answered and the process comes up. */
  ghost predicate Works(fate: ApplyFate) { (forall i :: fate.rpc(i) == Answered) && fate.start == Ready }

  class Core {
    var proc: Option<seq<Live>>
    var live: seq<Live>
    var generation: nat
    /** The RPCs of the latest hot update, in order. */
    var sent: seq<Op>
    /** The counters the running process keeps, and the sum of the final ones of all earlier processes. */
    var counters: Counters
    ghost var retired: Counters

    ghost function View(): CoreState
      reads this
    {
      CoreState(proc, live, generation)
    }

    ghost function Bytes(): Meter
      reads this
    {
      Meter(generation, counters, retired)
    }

    ghost predicate Valid()
      reads this
    {
      Coherent(View()) && NonNegative(counters)
    }

    constructor ()
      ensures Valid() && View() == CoreState(None, [], 0) && Bytes() == Meter(0, map[], map[])
    {
      proc, live, generation, sent := None, [], 0, [];
      counters, retired := map[], map[];
    }

    /** Notices a process that has exited. */
    method Running(exited: bool) returns (up: bool)
      modifies this`proc
      ensures proc == if exited then None else old(proc)
      ensures up == proc.Some?
    {
      if exited { proc := None; }
      up := proc.Some?;
    }

    method Stop()
      modifies this`proc
      ensures View() == Halt(old(View()))
    {
      proc := None;
    }

    /** A reading of the process's counters, which have grown by `more` since the last look; None if it fails. */
    method Stats(more: Option<Counters>) returns (values: Option<Counters>)
      requires NonNegative(counters) && (more.Some? ==> NonNegative(more.value))
      modifies this`counters
      ensures values == (if proc.None? || more.None? then None else Some(Plus(old(counters), more.value)))
      ensures counters == if values.Some? then values.value else old(counters)
      ensures Advances(old(Bytes()), Bytes())
    {
      values := None;
      if proc.Some? && more.Some? {
        counters := Plus(counters, more.value);
        values := Some(counters);
      }
    }

    /** Launches a process for next; the counters of the previous one have become final. */
    method Start(next: seq<Live>, fate: StartFate) returns (ok: bool)
      requires proc.None? && NonNegative(counters)
      modifies this`proc, this`live, this`generation, this`counters, this`retired
      ensures View() == Launch(old(View()), next, fate) && ok == (fate == Ready)
      ensures Advances(old(Bytes()), Bytes())
    {
      ok := false;
      if fate != NotLaunched {
        assert Grows(counters, counters);
        ghost var final: Counters :| Grows(counters, final);
        assert Grows(counters, final);
        forall k ensures Get(final, k) >= Get(counters, k) { if k in counters { assert k in final; } }
        retired := Plus(retired, final);
        counters := map[];
        generation := generation + 1;
        if fate != Exited { proc := Some(next); }
        if fate == Ready {
          live := next;
          ok := true;
        }
      }
    }

    method Restart(next: seq<Live>, first: StartFate, second: StartFate) returns (ok: bool)
      requires NonNegative(counters)
      modifies this`proc, this`live, this`generation, this`counters, this`retired
      ensures (View(), ok) == Restarted(old(View()), next, first, second)
      ensures Advances(old(Bytes()), Bytes())
    {
      ghost var b0 := Bytes();
      var recorded := live;
      Stop();
      ok := Start(next, first);
      if !ok {
        Stop();
        ghost var b1 := Bytes();
        var back := Start(recorded, second);
        AdvancesTrans(b0, b1, Bytes());
        if !back { Stop(); }
      }
    }

    /** Alters one user of the running process; an error leaves open whether it took effect. */
    method AlterUser(tag: string, op: Op, fate: RpcFate) returns (ok: bool)
      requires proc.Some? && op.j < |proc.value| && proc.value[op.j].tag == tag && UniqueTags(proc.value)
      modifies this`proc
      ensures ok == (fate == Answered)
      ensures proc == if fate == ErrorWithoutEffect then old(proc) else Some(Put(old(proc).value, op))
    {
      ok := fate == Answered;
      if fate != ErrorWithoutEffect {
        AlterIsPut(proc.value, op);
        proc := Some(Alter(proc.value, tag, op.email, op.account));
      }
    }

    /** Where a hot update from prev to next stands when every RPC so far was answered: the RPCs due before
        this stage are done, and none of a later stage was sent. */
    ghost predicate OnTrack(prev: seq<Live>, next: seq<Live>, stage: nat)
      reads this
    {
      proc == Some(live) && Takes(prev, next, sent, live) && DoneBefore(prev, next, sent, stage) && NonePast(sent, stage)
    }

    /** Sends one wanted RPC and, if it is answered, records it. */
    method Send(op: Op, fate: RpcFate, ghost prev: seq<Live>, ghost next: seq<Live>) returns (ok: bool)
      requires Fits(prev, next) && |prev| == |next| && OnTrack(prev, next, Stage(op)) && Wanted(prev, next, op) && op !in sent
      modifies this`proc, this`live, this`sent
      ensures ok == (fate == Answered) && sent == old(sent) + [op]
      ensures ok ==> OnTrack(prev, next, Stage(op))
      ensures !ok ==> BrokenOff(prev, next, sent, View())
    {
      ghost var ops, t := sent, live;
      TakesTags(prev, next, ops, t);
      ok := AlterUser(live[op.j].tag, op, fate);
      sent := sent + [op];
      if ok {
        live := Put(live, op);
        TakesOn(prev, next, ops, op, t);
        DoneOn(prev, next, ops, Stage(op), op);
      } else {
        BreaksOff(prev, next, ops, op, t, View());
      }
    }

    /** First half of an inbound's update: removes the users that next does not have, or has with another account. */
    method RemoveStale(next: seq<Live>, j: nat, rpc: nat -> RpcFate, ghost prev: seq<Live>) returns (ok: bool)
      requires Fits(prev, next) && j < |next| == |prev| && OnTrack(prev, next, 2 * j)
      requires if j > 0 then NonePast(sent, 2 * j - 1) else sent == []
      modifies this`proc, this`live, this`sent
      ensures ok ==> OnTrack(prev, next, 2 * j) && DoneBefore(prev, next, sent, 2 * j + 1)
      ensures !ok ==> BrokenOff(prev, next, sent, View()) && exists i :: rpc(i) != Answered
    {
      TakesTags(prev, next, sent, live);
      var todo := live[j].users.Keys;
      StageBegins(prev, next, sent, live, j);
      DueFirst(prev, next, sent, 2 * j, todo);
      ok := true;
      while todo != {} && ok
        invariant ok ==> OnTrack(prev, next, 2 * j) && Due(prev, next, sent, 2 * j, todo)
        invariant !ok ==> BrokenOff(prev, next, sent, View()) && exists i :: rpc(i) != Answered
        invariant todo <= prev[j].users.Keys
        decreases todo
      {
        var email :| email in todo;
        ok := RemoveOne(next, j, email, rpc(|sent|), prev, todo);
        todo := todo - {email};
      }
      if ok { StageDone(prev, next, sent, 2 * j); }
    }

    method RemoveOne(next: seq<Live>, j: nat, email: string, fate: RpcFate, ghost prev: seq<Live>, ghost todo: set<string>)
      returns (ok: bool)
      requires Fits(prev, next) && j < |next| == |prev| && OnTrack(prev, next, 2 * j) && Due(prev, next, sent, 2 * j, todo)
      requires email in todo && email in prev[j].users
      modifies this`proc, this`live, this`sent
      ensures ok ==> OnTrack(prev, next, 2 * j) && Due(prev, next, sent, 2 * j, todo - {email})
      ensures !ok ==> BrokenOff(prev, next, sent, View()) && fate != Answered
    {
      ghost var op := Op(j, email, None);
      TakesTags(prev, next, sent, live);
      StaleIsWanted(prev, next, sent, live, j, todo, email);
      NotYetSent(prev, next, sent, 2 * j, todo, op);
      ok := true;
      if UserAt(next, j, email) != UserAt(live, j, email) {
        DueOn(prev, next, sent, 2 * j, todo, op);
        ok := Send(Op(j, email, None), fate, prev, next);
      } else {
        DueSkip(prev, next, sent, 2 * j, todo, op);
      }
    }

    /** Second half: adds the users next has and the process does not. */
    method AddMissing(next: seq<Live>, j: nat, rpc: nat -> RpcFate, ghost prev: seq<Live>) returns (ok: bool)
      requires Fits(prev, next) && j < |next| == |prev| && OnTrack(prev, next, 2 * j + 1) && NonePast(sent, 2 * j)
      modifies this`proc, this`live, this`sent
      ensures ok ==> OnTrack(prev, next, 2 * j + 1) && DoneBefore(prev, next, sent, 2 * j + 2)
      ensures !ok ==> BrokenOff(prev, next, sent, View()) && exists i :: rpc(i) != Answered
    {
      var todo := next[j].users.Keys;
      DueFirst(prev, next, sent, 2 * j + 1, todo);
      ok := true;
      while todo != {} && ok
        invariant ok ==> OnTrack(prev, next, 2 * j + 1) && Due(prev, next, sent, 2 * j + 1, todo)
        invariant !ok ==> BrokenOff(prev, next, sent, View()) && exists i :: rpc(i) != Answered
        invariant todo <= next[j].users.Keys
        decreases todo
      {
        var email :| email in todo;
        ok := AddOne(next, j, email, rpc(|sent|), prev, todo);
        todo := todo - {email};
      }
      if ok { StageDone(prev, next, sent, 2 * j + 1); }
    }

    method AddOne(next: seq<Live>, j: nat, email: string, fate: RpcFate, ghost prev: seq<Live>, ghost todo: set<string>)
      returns (ok: bool)
      requires Fits(prev, next) && j < |next| == |prev| && OnTrack(prev, next, 2 * j + 1)
      requires Due(prev, next, sent, 2 * j + 1, todo) && email in todo && email in next[j].users
      modifies this`proc, this`live, this`sent
      ensures ok ==> OnTrack(prev, next, 2 * j + 1) && Due(prev, next, sent, 2 * j + 1, todo - {email})
      ensures !ok ==> BrokenOff(prev, next, sent, View()) && fate != Answered
    {
      var want := UserAt(next, j, email);
      ghost var op := Op(j, email, want);
      TakesTags(prev, next, sent, live);
      MissingIsWanted(prev, next, sent, live, j, todo, email);
      NotYetSent(prev, next, sent, 2 * j + 1, todo, op);
      ok := true;
      if UserAt(live, j, email) != want {
        DueOn(prev, next, sent, 2 * j + 1, todo, op);
        ok := Send(Op(j, email, want), fate, prev, next);
      } else {
        DueSkip(prev, next, sent, 2 * j + 1, todo, op);
      }
    }

    /** Moves the running process to next user by user. */
    method Hot(next: seq<Live>, rpc: nat -> RpcFate) returns (ok: bool)
      requires Valid() && proc.Some? && SameSkeleton(live, next) && UniqueTags(next)
      modifies this`proc, this`live, this`sent
      ensures HotOutcome(old(View()), next, sent, ok, View())
      ensures !ok ==> exists i :: rpc(i) != Answered
    {
      ghost var prev := live;
      sent := [];
      assert Fits(prev, next) && Takes(prev, next, [], prev) && DoneBefore(prev, next, [], 0) && NonePast([], 0);
      for j := 0 to |next|
        invariant OnTrack(prev, next, 2 * j) && if j > 0 then NonePast(sent, 2 * j - 1) else sent == []
      {
        ok := RemoveStale(next, j, rpc, prev);
        if !ok { return; }
        assert NonePast(sent, 2 * j + 1);
        ok := AddMissing(next, j, rpc, prev);
        if !ok { return; }
        assert NonePast(sent, 2 * j + 2);
      }
      TakenToEnd(prev, next, sent, live, generation);
      ok := true;
    }

    /** Moves the engine to the table next: hot if only users differ, by a restart otherwise; a failed hot update
        is undone by a restart on the table recorded before it. */
    method Apply(next: seq<Live>, fate: ApplyFate) returns (ok: bool)
      requires Valid() && UniqueTags(next)
      modifies this
      ensures Applies(if fate.exited then Halt(old(View())) else old(View()), next, ok, View())
      ensures Safe(if fate.exited then Halt(old(View())) else old(View()), next, ok, View())
      ensures Valid() && Advances(old(Bytes()), Bytes())
      ensures fate.exited || old(proc).None? ==> (View(), ok) == Restarted(Halt(old(View())), next, fate.start, fate.fallback)
      ensures Works(fate) ==> ok
    {
      ghost var c := if fate.exited then Halt(View()) else View();
      var up := Running(fate.exited);
      if !up || !SameSkeleton(live, next) {
        ok := Restart(next, fate.start, fate.fallback);
      } else {
        var recorded := live;
        ok := Hot(next, fate.rpc);
        ghost var mid := View();
        if !ok {
          var restored := Restart(recorded, fate.restore, fate.restoreFallback);
          if !restored { Stop(); }
        }
        HotApplies(c, next, sent, ok, mid, fate.restore, fate.restoreFallback);
      }
      ApplyIsSafe(c, next, ok, View());
    }
  }
}
