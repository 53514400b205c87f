/** Sessions of the UDP relay: packet handlers, one reply pump for each published session, and the final sweep,
    interleaved at their critical sections. */
module UdpRelay {
  import opened Runs

  type Source = string
  type Session = nat
  type Thread = nat

  /** Where the handler of one packet is. */
  datatype Handler =
    | Associating(src: Source)                          // no session was found; one is being opened, off the lock
    | Holding(src: Source, own: Session)                // opened, not yet published
    | Losing(own: Session, winner: Session)             // another handler published first: its own session is to be closed
    | Sending(to: Session)

  /** Where a reply pump is. */
  datatype Pump =
    | Pumping(src: Source, of: Session)
    | Closing(of: Session)                              // retired from the map; the session is to be closed

  datatype State = State(
    sessions: map<Source, Session>, made: nat, closed: set<Session>, published: set<Session>,
    handlers: map<Thread, Handler>, pumps: map<Thread, Pump>, next: Thread, delivering: bool)

  datatype Step =
    | Deliver(src: Source)                  // a packet arrives and its session is looked up
    | Associate(h: Thread, ok: bool)
    | Publish(h: Thread)
    | CloseOwn(h: Thread)
    | Send(h: Thread)
    | Retire(p: Thread)                     // a pump ends: its session failed, was closed or was idle
    | CloseRetired(p: Thread)
    | StopDelivery
    | Sweep                                 // Close

  predicate Enabled(s: State, step: Step) {
    match step
    case Deliver(_) => s.delivering
    case Associate(h, _) => h in s.handlers && s.handlers[h].Associating?
    case Publish(h) => h in s.handlers && s.handlers[h].Holding?
    case CloseOwn(h) => h in s.handlers && s.handlers[h].Losing?
    case Send(h) => h in s.handlers && s.handlers[h].Sending?
    case Retire(p) => p in s.pumps && s.pumps[p].Pumping?
    case CloseRetired(p) => p in s.pumps && s.pumps[p].Closing?
    case StopDelivery => true
    case Sweep => true
  }

  /** A pump retires its own entry only. */
  function Retired(sessions: map<Source, Session>, src: Source, of: Session): map<Source, Session> {
    if src in sessions && sessions[src] == of then sessions - {src} else sessions
  }

  function After(s: State, step: Step): State
    requires Enabled(s, step)
  {
    match step
    case Deliver(src) =>
      s.(handlers := s.handlers[s.next := if src in s.sessions then Sending(s.sessions[src]) else Associating(src)], next := s.next + 1)
    case Associate(h, ok) =>
      if ok then s.(handlers := s.handlers[h := Holding(s.handlers[h].src, s.made)], made := s.made + 1)
      else s.(handlers := s.handlers - {h})
    case Publish(h) =>
      var src, own := s.handlers[h].src, s.handlers[h].own;
      if src in s.sessions then s.(handlers := s.handlers[h := Losing(own, s.sessions[src])])
      else s.(sessions := s.sessions[src := own], published := s.published + {own}, handlers := s.handlers[h := Sending(own)],
              pumps := s.pumps[s.next := Pumping(src, own)], next := s.next + 1)
    case CloseOwn(h) => s.(closed := s.closed + {s.handlers[h].own}, handlers := s.handlers[h := Sending(s.handlers[h].winner)])
    case Send(h) => s.(handlers := s.handlers - {h})
    case Retire(p) =>
      s.(sessions := Retired(s.sessions, s.pumps[p].src, s.pumps[p].of), pumps := s.pumps[p := Closing(s.pumps[p].of)])
    case CloseRetired(p) => s.(closed := s.closed + {s.pumps[p].of}, pumps := s.pumps - {p})
    case StopDelivery => s.(delivering := false)
    case Sweep => s.(sessions := map[], closed := s.closed + s.sessions.Values)
  }

  // ---------- The invariant ----------

  /** The handler that opened session x and has neither published nor closed it. */
  predicate Owns(s: State, h: Thread, x: Session) {
    h in s.handlers && (s.handlers[h].Holding? || s.handlers[h].Losing?) && s.handlers[h].own == x
  }

  predicate Pumps(s: State, p: Thread, x: Session) { p in s.pumps && s.pumps[p].of == x }

  ghost predicate ThreadsOk(s: State) {
    (forall h :: h in s.handlers ==> h < s.next) && (forall p :: p in s.pumps ==> p < s.next)
  }

  /** An owned session is open, unpublished and owned once. */
  ghost predicate OwnedOnce(s: State) {
    && (forall h, x: Session :: Owns(s, h, x) ==> x < s.made && x !in s.published && x !in s.closed)
    && (forall h, g, x: Session :: Owns(s, h, x) && Owns(s, g, x) ==> h == g)
  }

  /** Only opened sessions are closed, only published ones have pumps, and none has two. */
  ghost predicate PumpedOnce(s: State) {
    && (forall x: Session :: x in s.published || x in s.closed ==> x < s.made)
    && (forall p, x: Session :: Pumps(s, p, x) ==> x in s.published)
    && (forall p, q, x: Session :: Pumps(s, p, x) && Pumps(s, q, x) ==> p == q)
  }

  /** A session in the map is open, under one source, and its pump runs for that source. */
  ghost predicate MapOk(s: State) {
    && (forall src :: src in s.sessions ==> s.sessions[src] in s.published && s.sessions[src] !in s.closed)
    && (forall a, b :: a in s.sessions && b in s.sessions && s.sessions[a] == s.sessions[b] ==> a == b)
    && (forall src :: src in s.sessions ==> exists p :: p in s.pumps && s.pumps[p] == Pumping(src, s.sessions[src]))
    && (forall p :: p in s.pumps && s.pumps[p].Pumping? ==>
          (s.pumps[p].src in s.sessions && s.sessions[s.pumps[p].src] == s.pumps[p].of) || s.pumps[p].of in s.closed)
  }

  /** Every session ever opened is closed, or someone is still going to close it. */
  ghost predicate NoneLost(s: State) {
    forall x: Session :: x < s.made ==> x in s.closed || (exists h :: Owns(s, h, x)) || (exists p :: Pumps(s, p, x))
  }

  ghost predicate Inv(s: State) { ThreadsOk(s) && OwnedOnce(s) && PumpedOnce(s) && MapOk(s) && NoneLost(s) }

  function Start(): State { State(map[], 0, {}, {}, map[], map[], 0, true) }

  /** A session that is yet to be opened is neither published nor closed. */
  lemma MadeLater(s: State)
    requires Inv(s)
    ensures forall x: Session :: x >= s.made ==> x !in s.published && x !in s.closed
  {
  }

  lemma StepKeepsOwned(s: State, step: Step)
    requires Inv(s) && Enabled(s, step)
    ensures ThreadsOk(After(s, step)) && OwnedOnce(After(s, step))
  {
    var n := After(s, step);
    forall h, x: Session | Owns(n, h, x)
      ensures x < n.made && x !in n.published && x !in n.closed
      ensures Owns(s, h, x) || (x == s.made && step == Associate(h, true))
    {
      if Owns(s, h, x) {
        ClosedBy(s, step, x);
        if step.Publish? { assert Owns(s, step.h, s.handlers[step.h].own); }
      } else {
        assert x == s.made && step == Associate(h, true);
        MadeLater(s);
      }
    }
  }

  lemma StepKeepsPumped(s: State, step: Step)
    requires Inv(s) && Enabled(s, step)
    ensures PumpedOnce(After(s, step))
  {
    var n := After(s, step);
    if step.Publish? { assert Owns(s, step.h, s.handlers[step.h].own); }
    forall x: Session | x in n.published || x in n.closed ensures x < n.made { ClosedBy(s, step, x); }
    forall p, x: Session | Pumps(n, p, x)
      ensures Pumps(s, p, x) || (step.Publish? && p == s.next && Owns(s, step.h, x))
      ensures x in n.published
    {
      if !(step.Publish? && p == s.next) { assert Pumps(s, p, x); }
    }
  }

  /** A running pump stays the pump of its source until its session is closed. */
  lemma PumpStays(s: State, step: Step, p: Thread)
    requires Inv(s) && Enabled(s, step) && p in After(s, step).pumps && After(s, step).pumps[p].Pumping?
    ensures var n := After(s, step);
      (n.pumps[p].src in n.sessions && n.sessions[n.pumps[p].src] == n.pumps[p].of) || n.pumps[p].of in n.closed
  {
    var n := After(s, step);
    var src, x := n.pumps[p].src, n.pumps[p].of;
    ClosedBy(s, step, x);
    if p in s.pumps && s.pumps[p] == n.pumps[p] {
      assert Pumps(s, p, x);
      if step.Retire? && src in s.sessions && s.sessions[src] == s.pumps[step.p].of { assert Pumps(s, step.p, s.pumps[step.p].of); }
    }
  }

  lemma EntryStays(s: State, step: Step, src: Source)
    requires Inv(s) && Enabled(s, step) && src in After(s, step).sessions
    ensures var n := After(s, step); exists p :: p in n.pumps && n.pumps[p] == Pumping(src, n.sessions[src])
  {
    var n := After(s, step);
    if src in s.sessions && s.sessions[src] == n.sessions[src] {
      var p :| p in s.pumps && s.pumps[p] == Pumping(src, s.sessions[src]);
      assert Pumps(s, p, s.sessions[src]);
      assert n.pumps[p] == s.pumps[p];
    } else {
      assert step.Publish? && n.pumps[s.next] == Pumping(src, n.sessions[src]);
    }
  }

  lemma EntryIsOpen(s: State, step: Step, src: Source)
    requires Inv(s) && Enabled(s, step) && src in After(s, step).sessions
    ensures After(s, step).sessions[src] in After(s, step).published && After(s, step).sessions[src] !in After(s, step).closed
  {
    var x := After(s, step).sessions[src];
    ClosedBy(s, step, x);
    if step.Publish? { assert Owns(s, step.h, s.handlers[step.h].own); }
    if src in s.sessions {
      var p :| p in s.pumps && s.pumps[p] == Pumping(src, s.sessions[src]);
      assert Pumps(s, p, s.sessions[src]);
    }
  }

  lemma StepKeepsMap(s: State, step: Step)
    requires Inv(s) && Enabled(s, step)
    ensures MapOk(After(s, step))
  {
    var n := After(s, step);
    if step.Publish? { assert Owns(s, step.h, s.handlers[step.h].own); }
    forall src | src in n.sessions
      ensures exists p :: p in n.pumps && n.pumps[p] == Pumping(src, n.sessions[src])
      ensures n.sessions[src] in n.published && n.sessions[src] !in n.closed
    {
      EntryStays(s, step, src);
      EntryIsOpen(s, step, src);
    }
    forall p | p in n.pumps && n.pumps[p].Pumping?
      ensures (n.pumps[p].src in n.sessions && n.sessions[n.pumps[p].src] == n.pumps[p].of) || n.pumps[p].of in n.closed
    {
      PumpStays(s, step, p);
    }
  }

  /** Which sessions a step closes: one that its handler owns, one whose pump has retired, or all that are in the map. */
  lemma ClosedBy(s: State, step: Step, x: Session)
    requires Inv(s) && Enabled(s, step)
    ensures x in After(s, step).closed <==>
      || x in s.closed
      || (step.CloseOwn? && Owns(s, step.h, x))
      || (step.CloseRetired? && Pumps(s, step.p, x))
      || (step.Sweep? && exists src :: src in s.sessions && s.sessions[src] == x)
  {
  }

  lemma StepKeepsAccounts(s: State, step: Step)
    requires Inv(s) && Enabled(s, step)
    ensures NoneLost(After(s, step))
  {
    var n := After(s, step);
    forall x: Session | x < n.made && x !in n.closed ensures (exists h :: Owns(n, h, x)) || (exists p :: Pumps(n, p, x)) {
      if x == s.made {
        assert Owns(n, step.h, x);
      } else if h :| Owns(s, h, x) {
        assert Owns(n, h, x) || (step == Publish(h) && Pumps(n, s.next, x));
      } else {
        var p :| Pumps(s, p, x);
        assert Pumps(n, p, x);
      }
    }
  }

  /** Every step of handlers, pumps and the sweep keeps the invariant. */
  lemma StepKeepsInv(s: State, step: Step)
    requires Inv(s) && Enabled(s, step)
    ensures Inv(After(s, step))
  {
    StepKeepsOwned(s, step);
    StepKeepsPumped(s, step);
    StepKeepsMap(s, step);
    StepKeepsAccounts(s, step);
  }

  ghost predicate Steps(s: State, step: Step, n: State) { Enabled(s, step) && n == After(s, step) }

  ghost function StepOf(): (State, Step, State) -> bool { (s: State, step: Step, n: State) => Steps(s, step, n) }

  ghost function Good(): State -> bool { (s: State) => Inv(s) }

  lemma StepsKeepGood()
    ensures forall s, step, n :: Good()(s) && StepOf()(s, step, n) ==> Good()(n)
  {
    forall s, step, n | Good()(s) && StepOf()(s, step, n) ensures Good()(n) { StepKeepsInv(s, step); }
  }

  /** The invariant holds in every interleaving. */
  lemma RunKeepsInv(states: seq<State>, steps: seq<Step>, i: nat)
    requires Run(StepOf(), states, steps) && states[0] == Start() && i < |states|
    ensures Inv(states[i])
  {
    assert Good()(states[0]);
    StepsKeepGood();
    Always(StepOf(), Good(), states, steps, i);
    assert Good()(states[i]);
  }

  /** A published session has one pump, which runs for its source. */
  lemma PublishedHasItsPump(s: State, src: Source)
    requires Inv(s) && src in s.sessions
    ensures exists p :: p in s.pumps && s.pumps[p] == Pumping(src, s.sessions[src]) && forall q :: Pumps(s, q, s.sessions[src]) ==> q == p
  {
    var p :| p in s.pumps && s.pumps[p] == Pumping(src, s.sessions[src]);
    assert Pumps(s, p, s.sessions[src]);
  }

  /** A pump starts only for a session that was never published before, so no session ever has a second pump. */
  lemma PumpsStartOnce(s: State, step: Step, p: Thread)
    requires Inv(s) && Enabled(s, step) && p in After(s, step).pumps && p !in s.pumps
    ensures var x := After(s, step).pumps[p].of;
      x !in s.published && x in After(s, step).published && step.Publish? && Owns(s, step.h, x)
  {
    assert Owns(s, step.h, s.handlers[step.h].own);
  }

  /** A retiring pump takes nothing but its own session from the map. */
  lemma RetireSparesOthers(s: State, p: Thread, src: Source)
    requires Inv(s) && Enabled(s, Retire(p)) && src in s.sessions
    ensures var n := After(s, Retire(p));
      if s.sessions[src] == s.pumps[p].of then src !in n.sessions && src == s.pumps[p].src
      else src in n.sessions && n.sessions[src] == s.sessions[src]
  {
    if s.sessions[src] == s.pumps[p].of {
      var q :| q in s.pumps && s.pumps[q] == Pumping(src, s.sessions[src]);
      assert Pumps(s, q, s.pumps[p].of) && Pumps(s, p, s.pumps[p].of);
    }
  }

  /** The session is closed without ever having been published. */
  ghost predicate LostRace(s: State, x: Session) { x in s.closed && x !in s.published }

  ghost function LostRaceOf(x: Session): State -> bool { (s: State) => Inv(s) && LostRace(s, x) }

  /** The session of the handler that lost the race is closed, and never gets a pump, whatever happens later. */
  lemma LoserIsClosed(states: seq<State>, steps: seq<Step>, h: Thread, x: Session)
    requires Run(StepOf(), states, steps) && Inv(states[0]) && |steps| > 0
    requires h in states[0].handlers && states[0].handlers[h].Losing? && states[0].handlers[h].own == x && steps[0] == CloseOwn(h)
    ensures forall i :: 0 < i < |states| ==> LostRace(states[i], x) && forall p :: !Pumps(states[i], p, x)
  {
    assert StepOf()(states[0], steps[0], states[1]) && Owns(states[0], h, x);
    StepKeepsInv(states[0], steps[0]);
    assert LostRaceOf(x)(states[1]);
    forall s, step, n | LostRaceOf(x)(s) && StepOf()(s, step, n) ensures LostRaceOf(x)(n) {
      StepKeepsInv(s, step);
      if step.Publish? { assert Owns(s, step.h, s.handlers[step.h].own); }
    }
    forall i | 0 < i < |states| ensures LostRace(states[i], x) && forall p :: !Pumps(states[i], p, x) {
      forall j | 0 <= j < |steps| - 1 ensures StepOf()(states[1..][j], steps[1..][j], states[1..][j + 1]) {
        assert StepOf()(states[j + 1], steps[j + 1], states[j + 1 + 1]);
      }
      Always(StepOf(), LostRaceOf(x), states[1..], steps[1..], i - 1);
      assert LostRaceOf(x)(states[1..][i - 1]) && states[1..][i - 1] == states[i];
    }
  }

  /** When no handler and no pump is left, the map is empty and every session ever opened is closed. */
  lemma QuiescentIsClean(s: State)
    requires Inv(s) && s.handlers == map[] && s.pumps == map[]
    ensures s.sessions == map[] && forall x: Session :: x < s.made ==> x in s.closed
  {
    forall src ensures src !in s.sessions {}
    forall x: Session | x < s.made ensures x in s.closed {
      assert forall h :: !Owns(s, h, x);
      assert forall p :: !Pumps(s, p, x);
    }
  }

  // ---------- The order of stopping ----------

  /** Delivery has stopped and no handler can publish any more. */
  predicate Stopped(s: State) { !s.delivering && forall h :: h in s.handlers ==> s.handlers[h].Losing? || s.handlers[h].Sending? }

  ghost predicate Swept(s: State) { Inv(s) && Stopped(s) && s.sessions == map[] }

  ghost function SweptOf(): State -> bool { (s: State) => Swept(s) }

  lemma SweptStays(states: seq<State>, steps: seq<Step>, i: nat)
    requires Run(StepOf(), states, steps) && Swept(states[0]) && i < |states|
    ensures Swept(states[i])
  {
    forall s, step, n | SweptOf()(s) && StepOf()(s, step, n) ensures SweptOf()(n) { StepKeepsInv(s, step); }
    assert SweptOf()(states[0]);
    Always(StepOf(), SweptOf(), states, steps, i);
    assert SweptOf()(states[i]);
  }

  /** In a swept relay the only open sessions are those a losing handler or a retired pump is about to close. */
  lemma SweptIsNearlyClosed(s: State, x: Session)
    requires Swept(s) && x < s.made && x !in s.closed
    ensures (exists h :: h in s.handlers && s.handlers[h].Losing? && s.handlers[h].own == x) || exists p :: p in s.pumps && s.pumps[p] == Closing(x)
  {
    if h :| Owns(s, h, x) {
      assert s.handlers[h].Losing?;
    } else {
      var p :| Pumps(s, p, x);
      assert s.pumps[p] == Closing(x);
    }
  }

  /** A sweep leaves the map empty for good if and only if delivery has stopped and every handler is past publishing:
      otherwise some interleaving publishes a session after it. */
  lemma SweepIsFinal(s: State)
    requires Inv(s)
    ensures Stopped(s) <==>
      forall states: seq<State>, steps: seq<Step> ::
        Run(StepOf(), states, steps) && states[0] == After(s, Sweep) ==> states[|steps|].sessions == map[]
  {
    var n := After(s, Sweep);
    StepKeepsInv(s, Sweep);
    if Stopped(s) {
      forall states: seq<State>, steps: seq<Step> | Run(StepOf(), states, steps) && states[0] == n
        ensures states[|steps|].sessions == map[]
      {
        SweptStays(states, steps, |steps|);
      }
    } else {
      var states, steps := LatePublication(n);
      assert states[|steps|].sessions != map[];
    }
  }

  lemma LatePublication(n: State) returns (states: seq<State>, steps: seq<Step>)
    requires Inv(n) && n.sessions == map[] && !Stopped(n)
    ensures Run(StepOf(), states, steps) && states[0] == n && states[|steps|].sessions != map[]
  {
    states, steps := [n], [];
    var h: Thread;
    if n.delivering {
      h := n.next;
      states, steps := Take(states, steps, Deliver("peer"));
    } else {
      h :| h in n.handlers && !n.handlers[h].Losing? && !n.handlers[h].Sending?;
    }
    if states[|steps|].handlers[h].Associating? {
      states, steps := Take(states, steps, Associate(h, true));
    }
    states, steps := Take(states, steps, Publish(h));
  }

  lemma Take(states: seq<State>, steps: seq<Step>, step: Step) returns (more: seq<State>, taken: seq<Step>)
    requires Run(StepOf(), states, steps) && Enabled(states[|steps|], step)
    ensures Run(StepOf(), more, taken) && more[0] == states[0] && |taken| == |steps| + 1
    ensures more[|taken|] == After(states[|steps|], step)
  {
    var n := After(states[|steps|], step);
    assert StepOf()(states[|states| - 1], step, n);
    Extended(StepOf(), states, steps, step, n);
    more, taken := states + [n], steps + [step];
  }

  // ---------- The relay ----------

  lemma OneSourceEach(s: State)
    requires Inv(s)
    ensures forall a, b :: a in s.sessions && b in s.sessions && s.sessions[a] == s.sessions[b] ==> a == b
    ensures forall a :: a in s.sessions ==> s.sessions[a] !in s.closed
  {
  }

  lemma ClosingsAre(all: map<Source, Session>, keys: seq<Source>, closings: seq<Session>)
    requires |keys| == |closings| && forall i :: 0 <= i < |keys| ==> keys[i] in all && closings[i] == all[keys[i]]
    requires forall src :: src in all ==> src in keys
    ensures forall x :: x in closings <==> x in all.Values
  {
    forall x | x in all.Values ensures x in closings {
      var src :| src in all && all[src] == x;
      var i :| 0 <= i < |keys| && keys[i] == src;
      assert closings[i] == x;
    }
  }

  class Relay {
    var sessions: map<Source, Session>
    ghost var made: nat
    ghost var closed: set<Session>
    ghost var published: set<Session>
    ghost var handlers: map<Thread, Handler>
    ghost var pumps: map<Thread, Pump>
    ghost var next: Thread
    ghost var delivering: bool

    ghost function View(): State
      reads this
    {
      State(sessions, made, closed, published, handlers, pumps, next, delivering)
    }

    constructor ()
      ensures View() == Start()
    {
      sessions, made, closed, published := map[], 0, {}, {};
      handlers, pumps, next, delivering := map[], map[], 0, true;
    }

    /** The first critical section of a handler: the session of a source, if one is published. */
    method Find(src: Source, ghost h: Thread) returns (found: bool, session: Session)
      requires Inv(View()) && delivering && h == next
      modifies this`handlers, this`next
      ensures View() == After(old(View()), Deliver(src))
      ensures found <==> src in sessions
      ensures found ==> session == sessions[src] && session !in closed
    {
      found := src in sessions;
      session := if found then sessions[src] else 0;
      handlers := handlers[next := if found then Sending(session) else Associating(src)];
      next := next + 1;
    }

    /** The second: a new session is published, unless another handler came first; then that one's is used. */
    method Publish(src: Source, own: Session, ghost h: Thread) returns (won: bool, session: Session)
      requires Inv(View()) && h in handlers && handlers[h] == Holding(src, own)
      modifies this`sessions, this`published, this`handlers, this`pumps, this`next
      ensures View() == After(old(View()), Step.Publish(h))
      ensures won <==> src !in old(sessions)
      ensures src in sessions && session == sessions[src] && session !in closed && (won <==> session == own)
    {
      if src in sessions {
        won, session := false, sessions[src];
        assert Owns(View(), h, own);
        handlers := handlers[h := Losing(own, session)];
      } else {
        won, session := true, own;
        assert Owns(View(), h, own);
        sessions := sessions[src := own];
        published := published + {own};
        handlers := handlers[h := Sending(own)];
        pumps := pumps[next := Pumping(src, own)];
        next := next + 1;
      }
    }

    /** The critical section of a pump that ends. */
    method Retire(src: Source, of: Session, ghost p: Thread)
      requires p in pumps && pumps[p] == Pumping(src, of)
      modifies this`sessions, this`pumps
      ensures View() == After(old(View()), Step.Retire(p))
    {
      if src in sessions && sessions[src] == of { sessions := sessions - {src}; }
      pumps := pumps[p := Closing(of)];
    }

    /** Close: every published session is closed and taken from the map. */
    method Close() returns (closings: seq<Session>)
      requires Inv(View())
      modifies this`sessions, this`closed
      ensures View() == After(old(View()), Sweep)
      ensures forall x :: x in closings <==> x in old(sessions).Values
      ensures forall i, k :: 0 <= i < k < |closings| ==> closings[i] != closings[k]
    {
      OneSourceEach(View());
      closings := CloseEach();
    }

    method CloseEach() returns (closings: seq<Session>)
      requires forall a, b :: a in sessions && b in sessions && sessions[a] == sessions[b] ==> a == b
      modifies this`sessions, this`closed
      ensures sessions == map[] && closed == old(closed) + old(sessions).Values
      ensures forall x :: x in closings <==> x in old(sessions).Values
      ensures forall i, k :: 0 <= i < k < |closings| ==> closings[i] != closings[k]
    {
      closings := [];
      ghost var all, before, keys := sessions, closed, [];
      while sessions != map[]
        invariant |keys| == |closings| && forall i :: 0 <= i < |keys| ==> keys[i] in all && keys[i] !in sessions && closings[i] == all[keys[i]]
        invariant forall i, k :: 0 <= i < k < |keys| ==> keys[i] != keys[k]
        invariant forall src :: src in sessions ==> src in all && sessions[src] == all[src]
        invariant forall src :: src in all ==> src in sessions || src in keys
        invariant forall x :: x in closed <==> x in before || x in closings
        decreases sessions.Keys
      {
        var src :| src in sessions;
        closings := closings + [sessions[src]];
        closed := closed + {sessions[src]};
        keys := keys + [src];
        sessions := sessions - {src};
      }
      ClosingsAre(all, keys, closings);
      assert closed == before + all.Values;
    }
  }
}
