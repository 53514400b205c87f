/** The event rate limiter: when pruning its memory changes no answer, and what its answers mean. */
module RateLimiter {
  import opened Text

  /** The longest duration; differences of times saturate there. */
  const MAX_DURATION := 0x7FFF_FFFF_FFFF_FFFF

  /** The zero time, in nanoseconds from the Unix epoch. */
  const ZERO_TIME := -62_135_596_800_000_000_000

  function Sub(a: int, b: int): int {
    if a - b > MAX_DURATION then MAX_DURATION else if a - b < -MAX_DURATION - 1 then -MAX_DURATION - 1 else a - b
  }

  datatype Call = Call(key: string, now: int)

  function KeyOf(eventType: string, source: string): string { eventType + ":" + source }

  /** Events of different types or sources have different keys, as no type has a colon. */
  lemma KeysDiffer(t: string, s: string, u: string, r: string)
    requires ':' !in t && ':' !in u && KeyOf(t, s) == KeyOf(u, r)
    ensures t == u && s == r
  {
    var k := KeyOf(t, s);
    FirstChar(k, ':', |t|);
    FirstChar(k, ':', |u|);
    assert k[..|t|] == t && k[..|u|] == u && k[|t| + 1..] == s && k[|u| + 1..] == r;
  }

  // ---------- The limiter without pruning ----------

  /** The latest call of the key that was allowed, or -1. */
  function LastIndex(calls: seq<Call>, answers: seq<bool>, key: string): (r: int)
    requires |answers| == |calls|
    ensures -1 <= r < |calls|
  {
    if calls == [] then -1
    else
      var n := |calls| - 1;
      if calls[n].key == key && answers[n] then n else LastIndex(calls[..n], answers[..n], key)
  }

  function LastSent(calls: seq<Call>, answers: seq<bool>, key: string): int
    requires |answers| == |calls|
  {
    var i := LastIndex(calls, answers, key);
    if i < 0 then ZERO_TIME else calls[i].now
  }

  /** The answers of a limiter that never forgets when a key was last sent. */
  function Unpruned(cooldown: int, calls: seq<Call>): (r: seq<bool>)
    ensures |r| == |calls|
  {
    if calls == [] then []
    else
      var n := |calls| - 1;
      var before := Unpruned(cooldown, calls[..n]);
      before + [Sub(calls[n].now, LastSent(calls[..n], before, calls[n].key)) >= cooldown]
  }

  predicate Ordered(calls: seq<Call>) { forall i, k :: 0 <= i < k < |calls| ==> calls[i].now <= calls[k].now }

  predicate AfterEpoch(calls: seq<Call>) { forall i :: 0 <= i < |calls| ==> calls[i].now >= 0 }

  /** Call k comes at least a cooldown after every earlier call of its key that was allowed. */
  ghost predicate Due(cooldown: int, calls: seq<Call>, answers: seq<bool>, k: nat)
    requires k < |calls| == |answers|
  {
    forall i :: 0 <= i < k && answers[i] && calls[i].key == calls[k].key ==> calls[k].now - calls[i].now >= cooldown
  }

  /** A call is allowed exactly when it is due. */
  ghost predicate Ideal(cooldown: int, calls: seq<Call>, answers: seq<bool>) {
    |answers| == |calls| && forall k :: 0 <= k < |calls| ==> (answers[k] <==> Due(cooldown, calls, answers, k))
  }

  /** There is one ideal list of answers to a list of calls. */
  lemma {:induction false} IdealIsUnique(cooldown: int, calls: seq<Call>, a: seq<bool>, b: seq<bool>, n: nat)
    requires Ideal(cooldown, calls, a) && Ideal(cooldown, calls, b) && n <= |calls|
    ensures forall k :: 0 <= k < n ==> a[k] == b[k]
  {
    if n > 0 { IdealIsUnique(cooldown, calls, a, b, n - 1); }
  }

  lemma {:induction false} LastIndexIs(calls: seq<Call>, answers: seq<bool>, key: string)
    requires |answers| == |calls|
    ensures var i := LastIndex(calls, answers, key);
      && (i >= 0 ==> answers[i] && calls[i].key == key)
      && forall j :: i < j < |calls| && answers[j] ==> calls[j].key != key
  {
    if calls != [] {
      var n := |calls| - 1;
      LastIndexIs(calls[..n], answers[..n], key);
      assert forall j :: 0 <= j < n ==> calls[..n][j] == calls[j] && answers[..n][j] == answers[j];
    }
  }

  /** With calls in clock order it is enough to look at the last send. */
  lemma DueByLastSent(cooldown: int, calls: seq<Call>, answers: seq<bool>, c: Call, ok: bool)
    requires |answers| == |calls| && Ordered(calls + [c]) && cooldown <= MAX_DURATION && c.now >= 0
    ensures Due(cooldown, calls + [c], answers + [ok], |calls|) <==> Sub(c.now, LastSent(calls, answers, c.key)) >= cooldown
  {
    var more, all := calls + [c], answers + [ok];
    LastIndexIs(calls, answers, c.key);
    var last := LastIndex(calls, answers, c.key);
    forall i | 0 <= i < |calls| && all[i] && more[i].key == c.key
      ensures last >= i && Sub(c.now, more[i].now) >= Sub(c.now, more[last].now)
    {
      assert answers[i] && calls[i].key == c.key;
      assert more[i].now <= more[last].now;
    }
    if last >= 0 { assert more[last] == calls[last] && all[last] && more[|calls|] == c; }
  }

  lemma IdealOn(cooldown: int, calls: seq<Call>, answers: seq<bool>, c: Call, ok: bool)
    requires Ideal(cooldown, calls, answers) && (ok <==> Due(cooldown, calls + [c], answers + [ok], |calls|))
    ensures Ideal(cooldown, calls + [c], answers + [ok])
  {
    var more, all := calls + [c], answers + [ok];
    forall k | 0 <= k < |calls| ensures all[k] <==> Due(cooldown, more, all, k) {
      assert forall i :: 0 <= i <= k ==> all[i] == answers[i] && more[i] == calls[i];
      assert Due(cooldown, more, all, k) <==> Due(cooldown, calls, answers, k);
    }
  }

  /** For calls in clock order the unpruned limiter is ideal. */
  lemma {:induction false} UnprunedIsIdeal(cooldown: int, calls: seq<Call>)
    requires Ordered(calls) && AfterEpoch(calls) && cooldown <= MAX_DURATION
    ensures Ideal(cooldown, calls, Unpruned(cooldown, calls))
  {
    if calls != [] {
      var n := |calls| - 1;
      var before := Unpruned(cooldown, calls[..n]);
      UnprunedIsIdeal(cooldown, calls[..n]);
      assert calls == calls[..n] + [calls[n]];
      var ok := Sub(calls[n].now, LastSent(calls[..n], before, calls[n].key)) >= cooldown;
      DueByLastSent(cooldown, calls[..n], before, calls[n], ok);
      IdealOn(cooldown, calls[..n], before, calls[n], ok);
    }
  }

  /** Two sends of one key are at least a cooldown apart. */
  lemma SendsAreApart(cooldown: int, calls: seq<Call>, i: nat, k: nat)
    requires Ordered(calls) && AfterEpoch(calls) && cooldown <= MAX_DURATION && i < k < |calls|
    requires var answers := Unpruned(cooldown, calls); answers[i] && answers[k] && calls[i].key == calls[k].key
    ensures calls[k].now - calls[i].now >= cooldown
  {
    UnprunedIsIdeal(cooldown, calls);
    assert Due(cooldown, calls, Unpruned(cooldown, calls), k);
  }

  // ---------- The pruning limiter ----------

  datatype Memory = Memory(lastSent: map<string, int>, lastPrune: int)

  function SentAt(m: Memory, key: string): int { if key in m.lastSent then m.lastSent[key] else ZERO_TIME }

  function Pruned(m: Memory, cooldown: int, now: int): Memory {
    if Sub(now, m.lastPrune) < cooldown then m
    else Memory(map k | k in m.lastSent && Sub(now, m.lastSent[k]) < cooldown :: m.lastSent[k], now)
  }

  function Allowed(m: Memory, cooldown: int, c: Call): (Memory, bool) {
    var p := Pruned(m, cooldown, c.now);
    if Sub(c.now, SentAt(p, c.key)) < cooldown then (p, false)
    else (p.(lastSent := p.lastSent[c.key := c.now]), true)
  }

  /** The memory and the answers after some calls. */
  function RunOf(cooldown: int, calls: seq<Call>): (r: (Memory, seq<bool>))
    ensures |r.1| == |calls|
  {
    if calls == [] then (Memory(map[], ZERO_TIME), [])
    else
      var n := |calls| - 1;
      var before := RunOf(cooldown, calls[..n]);
      var next := Allowed(before.0, cooldown, calls[n]);
      (next.0, before.1 + [next.1])
  }

  /** The reading of the latest sweep: it depends on the clock readings alone. */
  function LastSweep(cooldown: int, calls: seq<Call>): int {
    if calls == [] then ZERO_TIME
    else
      var n := |calls| - 1;
      var before := LastSweep(cooldown, calls[..n]);
      if Sub(calls[n].now, before) < cooldown then before else calls[n].now
  }

  predicate SweepsAt(cooldown: int, calls: seq<Call>, j: nat)
    requires j < |calls|
  {
    Sub(calls[j].now, LastSweep(cooldown, calls[..j])) >= cooldown
  }

  /** Some sweep after call i read a clock that was past its cooldown. */
  predicate SweptAfter(cooldown: int, calls: seq<Call>, i: int) {
    exists j :: 0 <= i < j < |calls| && SweepsAt(cooldown, calls, j) && Sub(calls[j].now, calls[i].now) >= cooldown
  }

  /** Call k reads a clock within the cooldown of its key's last send, which a sweep with a later reading, or this
      call's own, found past it. */
  predicate TooEarly(cooldown: int, calls: seq<Call>, answers: seq<bool>, k: nat)
    requires k < |calls| == |answers|
  {
    OutOfStep(cooldown, calls[..k], answers[..k], calls[k])
  }

  predicate OutOfStep(cooldown: int, before: seq<Call>, answers: seq<bool>, c: Call)
    requires |answers| == |before|
  {
    && SweptAfter(cooldown, before + [c], LastIndex(before, answers, c.key))
    && Sub(c.now, LastSent(before, answers, c.key)) < cooldown
  }

  /** The memory holds the last send of every key but those swept since. */
  ghost predicate Holds(m: Memory, cooldown: int, calls: seq<Call>, answers: seq<bool>)
    requires |answers| == |calls|
  {
    && m.lastPrune == LastSweep(cooldown, calls)
    && forall key ::
         var i := LastIndex(calls, answers, key);
         && (key in m.lastSent <==> i >= 0 && !SweptAfter(cooldown, calls, i))
         && (key in m.lastSent ==> m.lastSent[key] == calls[i].now)
  }

  lemma SweptOn(cooldown: int, calls: seq<Call>, c: Call, i: int)
    requires 0 <= i < |calls|
    ensures SweptAfter(cooldown, calls + [c], i) <==>
      || SweptAfter(cooldown, calls, i)
      || (Sub(c.now, LastSweep(cooldown, calls)) >= cooldown && Sub(c.now, calls[i].now) >= cooldown)
  {
    var more := calls + [c];
    assert more[..|calls|] == calls;
    assert forall j :: 0 <= j < |calls| ==> more[..j] == calls[..j] && more[j] == calls[j];
    if Sub(c.now, LastSweep(cooldown, calls)) >= cooldown && Sub(c.now, calls[i].now) >= cooldown {
      assert SweepsAt(cooldown, more, |calls|);
    }
    if SweptAfter(cooldown, calls, i) {
      var j :| i < j < |calls| && SweepsAt(cooldown, calls, j) && Sub(calls[j].now, calls[i].now) >= cooldown;
      assert SweepsAt(cooldown, more, j);
    }
  }

  /** What the sweep of the next call leaves. */
  lemma SweepHolds(m: Memory, cooldown: int, calls: seq<Call>, answers: seq<bool>, c: Call, key: string)
    requires |answers| == |calls| && Holds(m, cooldown, calls, answers)
    ensures var p, i := Pruned(m, cooldown, c.now), LastIndex(calls, answers, key);
      && (key in p.lastSent <==> i >= 0 && !SweptAfter(cooldown, calls + [c], i))
      && (key in p.lastSent ==> p.lastSent[key] == calls[i].now)
  {
    var i := LastIndex(calls, answers, key);
    if i >= 0 { SweptOn(cooldown, calls, c, i); }
  }

  lemma HoldsOn(m: Memory, cooldown: int, calls: seq<Call>, answers: seq<bool>, c: Call)
    requires |answers| == |calls| && Holds(m, cooldown, calls, answers)
    ensures var next := Allowed(m, cooldown, c); Holds(next.0, cooldown, calls + [c], answers + [next.1])
  {
    var next := Allowed(m, cooldown, c);
    var more, all := calls + [c], answers + [next.1];
    assert more[..|calls|] == calls && all[..|answers|] == answers;
    forall key
      ensures var i := LastIndex(more, all, key);
        && (key in next.0.lastSent <==> i >= 0 && !SweptAfter(cooldown, more, i))
        && (key in next.0.lastSent ==> next.0.lastSent[key] == more[i].now)
    {
      SweepHolds(m, cooldown, calls, answers, c, key);
    }
  }

  /** The next answer is the unpruned limiter's exactly when the call is not too early. */
  lemma NextAnswer(m: Memory, cooldown: int, calls: seq<Call>, answers: seq<bool>, c: Call)
    requires |answers| == |calls| && Holds(m, cooldown, calls, answers) && c.now >= 0 && cooldown <= MAX_DURATION
    ensures (Allowed(m, cooldown, c).1 <==> Sub(c.now, LastSent(calls, answers, c.key)) >= cooldown) <==>
      !OutOfStep(cooldown, calls, answers, c)
  {
    SweepHolds(m, cooldown, calls, answers, c, c.key);
  }

  lemma {:induction false} UnprunedPrefix(cooldown: int, calls: seq<Call>, k: nat)
    requires k <= |calls|
    ensures Unpruned(cooldown, calls)[..k] == Unpruned(cooldown, calls[..k])
    decreases |calls| - k
  {
    if k == |calls| {
      assert calls[..k] == calls;
    } else {
      UnprunedPrefix(cooldown, calls, k + 1);
      assert calls[..k + 1][..k] == calls[..k];
    }
  }

  lemma {:induction false} RunPrefix(cooldown: int, calls: seq<Call>, k: nat)
    requires k <= |calls|
    ensures RunOf(cooldown, calls).1[..k] == RunOf(cooldown, calls[..k]).1
    decreases |calls| - k
  {
    if k == |calls| {
      assert calls[..k] == calls;
    } else {
      RunPrefix(cooldown, calls, k + 1);
      assert calls[..k + 1][..k] == calls[..k];
    }
  }

  lemma {:induction false} RunHolds(cooldown: int, calls: seq<Call>)
    ensures Holds(RunOf(cooldown, calls).0, cooldown, calls, RunOf(cooldown, calls).1)
  {
    if calls != [] {
      var n := |calls| - 1;
      RunHolds(cooldown, calls[..n]);
      HoldsOn(RunOf(cooldown, calls[..n]).0, cooldown, calls[..n], RunOf(cooldown, calls[..n]).1, calls[n]);
      assert calls[..n] + [calls[n]] == calls;
    }
  }

  lemma AnswerAt(cooldown: int, calls: seq<Call>, k: nat)
    requires k < |calls|
    ensures RunOf(cooldown, calls).1[k] == Allowed(RunOf(cooldown, calls[..k]).0, cooldown, calls[k]).1
    ensures Unpruned(cooldown, calls)[k] ==
      (Sub(calls[k].now, LastSent(calls[..k], Unpruned(cooldown, calls[..k]), calls[k].key)) >= cooldown)
  {
    var more := calls[..k + 1];
    RunPrefix(cooldown, calls, k + 1);
    UnprunedPrefix(cooldown, calls, k + 1);
    assert more[..k] == calls[..k] && more[k] == calls[k];
    assert RunOf(cooldown, calls).1[..k + 1][k] == RunOf(cooldown, calls).1[k];
    assert Unpruned(cooldown, calls)[..k + 1][k] == Unpruned(cooldown, calls)[k];
  }

  ghost predicate Agree(cooldown: int, calls: seq<Call>, n: nat)
    requires n <= |calls|
  {
    forall k :: 0 <= k < n ==> RunOf(cooldown, calls).1[k] == Unpruned(cooldown, calls)[k]
  }

  lemma AgreedPrefix(cooldown: int, calls: seq<Call>, k: nat)
    requires k <= |calls| && Agree(cooldown, calls, k)
    ensures RunOf(cooldown, calls[..k]).1 == Unpruned(cooldown, calls[..k]) == Unpruned(cooldown, calls)[..k]
  {
    RunPrefix(cooldown, calls, k);
    UnprunedPrefix(cooldown, calls, k);
  }

  /** As long as the answers agree, the next one agrees exactly when its call is not too early. */
  lemma AgreeOn(cooldown: int, calls: seq<Call>, k: nat)
    requires k < |calls| && AfterEpoch(calls) && cooldown <= MAX_DURATION && Agree(cooldown, calls, k)
    ensures RunOf(cooldown, calls).1[k] == Unpruned(cooldown, calls)[k] <==>
      !TooEarly(cooldown, calls, Unpruned(cooldown, calls), k)
  {
    var some, c := calls[..k], calls[k];
    AnswerAt(cooldown, calls, k);
    AgreedPrefix(cooldown, calls, k);
    RunHolds(cooldown, some);
    NextAnswer(RunOf(cooldown, some).0, cooldown, some, Unpruned(cooldown, some), c);
  }

  ghost predicate NoneTooEarly(cooldown: int, calls: seq<Call>, n: nat)
    requires n <= |calls|
  {
    forall k :: 0 <= k < n ==> !TooEarly(cooldown, calls, Unpruned(cooldown, calls), k)
  }

  lemma {:induction false} AgreeUpTo(cooldown: int, calls: seq<Call>, n: nat)
    requires n <= |calls| && AfterEpoch(calls) && cooldown <= MAX_DURATION
    ensures Agree(cooldown, calls, n) <==> NoneTooEarly(cooldown, calls, n)
  {
    if n > 0 {
      AgreeUpTo(cooldown, calls, n - 1);
      if Agree(cooldown, calls, n - 1) { AgreeOn(cooldown, calls, n - 1); }
    }
  }

  /** Pruning changes no answer if and only if no call comes too early: none reads a clock within the cooldown of a
      send that a sweep, with a reading ahead of it, has already forgotten. */
  lemma PruningIsInvisible(cooldown: int, calls: seq<Call>)
    requires AfterEpoch(calls) && cooldown <= MAX_DURATION
    ensures RunOf(cooldown, calls).1 == Unpruned(cooldown, calls) <==> NoneTooEarly(cooldown, calls, |calls|)
  {
    AgreeUpTo(cooldown, calls, |calls|);
    var a, b := RunOf(cooldown, calls).1, Unpruned(cooldown, calls);
    assert a == b <==> forall k :: 0 <= k < |calls| ==> a[k] == b[k];
  }

  lemma OrderedIsInStep(cooldown: int, before: seq<Call>, answers: seq<bool>, c: Call)
    requires |answers| == |before| && forall i :: 0 <= i < |before| ==> before[i].now <= c.now
    ensures !OutOfStep(cooldown, before, answers, c)
  {
    var i, more := LastIndex(before, answers, c.key), before + [c];
    forall j | 0 <= i < j < |more| && Sub(more[j].now, more[i].now) >= cooldown ensures Sub(c.now, before[i].now) >= cooldown {
      assert more[j].now <= c.now;
    }
  }

  /** Calls in clock order never come too early. */
  lemma OrderedIsNeverTooEarly(cooldown: int, calls: seq<Call>)
    requires Ordered(calls)
    ensures NoneTooEarly(cooldown, calls, |calls|)
  {
    forall k | 0 <= k < |calls| ensures !TooEarly(cooldown, calls, Unpruned(cooldown, calls), k) {
      OrderedIsInStep(cooldown, calls[..k], Unpruned(cooldown, calls)[..k], calls[k]);
    }
  }

  /** Readings out of order can break it: the last of these calls is allowed a moment before its cooldown is over. */
  lemma OutOfOrderAllowsTooEarly(cooldown: int, a: string, b: string)
    requires 1 < cooldown <= MAX_DURATION && a != b
    ensures var calls := [Call(a, 0), Call(b, cooldown), Call(a, cooldown - 1)];
      RunOf(cooldown, calls).1 != Unpruned(cooldown, calls)
  {
    var calls := [Call(a, 0), Call(b, cooldown), Call(a, cooldown - 1)];
    var u := Unpruned(cooldown, calls);
    PruningIsInvisible(cooldown, calls);
    UnprunedPrefix(cooldown, calls, 1);
    assert calls[..1] == [Call(a, 0)] && calls[..1][..0] == [];
    assert u[..1][0] == u[0] == true;
    assert calls[..2][..1] == calls[..1] && u[..2][..1] == u[..1];
    assert LastIndex(calls[..2], u[..2], a) == 0;
    assert calls[..2] + [calls[2]] == calls && SweepsAt(cooldown, calls, 1);
    assert TooEarly(cooldown, calls, u, 2);
  }

  class RateLimiter {
    const cooldown: int
    var lastSent: map<string, int>
    var lastPrune: int
    /** The calls so far and their answers. */
    ghost var calls: seq<Call>
    ghost var answers: seq<bool>

    ghost predicate Valid()
      reads this
    {
      (Memory(lastSent, lastPrune), answers) == RunOf(cooldown, calls)
    }

    constructor (cooldown: int)
      ensures Valid() && calls == [] && answers == [] && this.cooldown == cooldown
    {
      this.cooldown, lastSent, lastPrune, calls, answers := cooldown, map[], ZERO_TIME, [], [];
    }

    method Prune(now: int)
      modifies this`lastSent, this`lastPrune
      ensures Memory(lastSent, lastPrune) == Pruned(Memory(old(lastSent), old(lastPrune)), cooldown, now)
    {
      if Sub(now, lastPrune) >= cooldown {
        lastPrune := now;
        var todo := lastSent.Keys;
        while todo != {}
          invariant lastPrune == now && todo <= lastSent.Keys <= old(lastSent).Keys
          invariant forall k :: k in lastSent ==> lastSent[k] == old(lastSent)[k]
          invariant forall k :: k in old(lastSent) && k !in todo ==> (k in lastSent <==> Sub(now, old(lastSent)[k]) < cooldown)
          decreases todo
        {
          var k :| k in todo;
          todo := todo - {k};
          if Sub(now, lastSent[k]) >= cooldown { lastSent := lastSent - {k}; }
        }
      }
    }

    /** Whether an event may be sent now, whatever the clock readings of the calls so far: the answers are those of a
        limiter that never forgets, as long as no call came too early. */
    method Allow(eventType: string, source: string, now: int) returns (ok: bool)
      requires Valid()
      modifies this
      ensures Valid() && calls == old(calls) + [Call(KeyOf(eventType, source), now)] && answers == old(answers) + [ok]
      ensures AfterEpoch(calls) && cooldown <= MAX_DURATION ==>
        (answers == Unpruned(cooldown, calls) <==> NoneTooEarly(cooldown, calls, |calls|))
      ensures AfterEpoch(calls) && cooldown <= MAX_DURATION && Ordered(calls) ==> Ideal(cooldown, calls, answers)
    {
      var key := KeyOf(eventType, source);
      Prune(now);
      ok := Sub(now, SentAt(Memory(lastSent, lastPrune), key)) >= cooldown;
      if ok { lastSent := lastSent[key := now]; }
      assert (calls + [Call(key, now)])[..|calls|] == calls;
      calls, answers := calls + [Call(key, now)], answers + [ok];
      AnswersAre(cooldown, calls);
    }
  }

  lemma AnswersAre(cooldown: int, calls: seq<Call>)
    ensures AfterEpoch(calls) && cooldown <= MAX_DURATION ==>
      (RunOf(cooldown, calls).1 == Unpruned(cooldown, calls) <==> NoneTooEarly(cooldown, calls, |calls|))
    ensures AfterEpoch(calls) && cooldown <= MAX_DURATION && Ordered(calls) ==> Ideal(cooldown, calls, RunOf(cooldown, calls).1)
  {
    if AfterEpoch(calls) && cooldown <= MAX_DURATION {
      PruningIsInvisible(cooldown, calls);
      if Ordered(calls) {
        OrderedIsNeverTooEarly(cooldown, calls);
        UnprunedIsIdeal(cooldown, calls);
      }
    }
  }
}
