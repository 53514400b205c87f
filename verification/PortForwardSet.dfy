/** The supervisor of port-forward listeners: each reconciliation closes what is no longer wanted and opens what is. */
module PortForwardSet {
  import opened Options
  import PortSpec

  datatype Addr = V4(bits: nat) | V6(bits: nat)

  /** A peer; an entry of allowedIPs that is no address or prefix is None. */
  datatype Peer = Peer(email: string, allowedIPs: seq<Option<Addr>>, forwardedPorts: string)

  datatype Instance = Instance(peers: seq<Peer>, ipv6Enabled: bool)

  datatype Proto = Tcp | Udp

  datatype Key = Key(email: string, port: int, proto: Proto)

  // ---------- What an instance wants ----------

  function FirstIPv4(ips: seq<Option<Addr>>): Option<Addr> {
    if ips == [] then None else if ips[0].Some? && ips[0].value.V4? then ips[0] else FirstIPv4(ips[1..])
  }

  function FirstIPv6(ips: seq<Option<Addr>>): Option<Addr> {
    if ips == [] then None else if ips[0].Some? && ips[0].value.V6? then ips[0] else FirstIPv6(ips[1..])
  }

  /** The address a peer's forwards lead to. */
  function TargetOf(inst: Instance, p: Peer): Option<Addr> {
    if p.email == "" then None
    else if FirstIPv4(p.allowedIPs).Some? then FirstIPv4(p.allowedIPs)
    else if inst.ipv6Enabled then FirstIPv6(p.allowedIPs)
    else None
  }

  /** The targets of the first n peers, by email; of two peers with one email the later counts. */
  function TargetsOf(inst: Instance, n: nat): map<string, Addr>
    requires n <= |inst.peers|
  {
    if n == 0 then map[]
    else
      var rest, p := TargetsOf(inst, n - 1), inst.peers[n - 1];
      var t := TargetOf(inst, p);
      if t.Some? then rest[p.email := t.value] else rest
  }

  function Targets(inst: Instance): map<string, Addr> { TargetsOf(inst, |inst.peers|) }

  /** How a forwarded-ports text expands into ports. */
  type Expansion = string -> seq<int>

  /** Both protocols of every port of a peer that has a target. */
  predicate PeerWants(expand: Expansion, p: Peer, targets: map<string, Addr>, k: Key) {
    p.email == k.email && p.email in targets && p.email != "" && p.forwardedPorts != "" && k.port in expand(p.forwardedPorts)
  }

  predicate Wants(expand: Expansion, inst: Instance, k: Key) {
    exists i :: 0 <= i < |inst.peers| && PeerWants(expand, inst.peers[i], Targets(inst), k)
  }

  /** Entry i is the first address of its family, IPv4 or not. */
  predicate IsFirst(ips: seq<Option<Addr>>, i: nat, v4: bool) {
    i < |ips| && ips[i].Some? && ips[i].value.V4? == v4 && forall j :: 0 <= j < i && ips[j].Some? ==> ips[j].value.V4? != v4
  }

  predicate HasNone(ips: seq<Option<Addr>>, v4: bool) { forall j :: 0 <= j < |ips| && ips[j].Some? ==> ips[j].value.V4? != v4 }

  lemma {:induction false} FirstIPv4Is(ips: seq<Option<Addr>>)
    ensures FirstIPv4(ips).None? <==> HasNone(ips, true)
    ensures forall i: nat :: IsFirst(ips, i, true) ==> FirstIPv4(ips) == ips[i]
  {
    if ips != [] && !(ips[0].Some? && ips[0].value.V4?) {
      FirstIPv4Is(ips[1..]);
      forall i: nat | IsFirst(ips, i, true) ensures FirstIPv4(ips) == ips[i] { assert IsFirst(ips[1..], i - 1, true); }
      assert forall j :: 0 < j < |ips| ==> ips[j] == ips[1..][j - 1];
    }
  }

  lemma {:induction false} FirstIPv6Is(ips: seq<Option<Addr>>)
    ensures FirstIPv6(ips).None? <==> HasNone(ips, false)
    ensures forall i: nat :: IsFirst(ips, i, false) ==> FirstIPv6(ips) == ips[i]
  {
    if ips != [] && !(ips[0].Some? && ips[0].value.V6?) {
      FirstIPv6Is(ips[1..]);
      forall i: nat | IsFirst(ips, i, false) ensures FirstIPv6(ips) == ips[i] { assert IsFirst(ips[1..], i - 1, false); }
      assert forall j :: 0 < j < |ips| ==> ips[j] == ips[1..][j - 1];
    }
  }

  /** The first IPv4 address of a peer that has an email, or, if the instance has IPv6 and there is no IPv4 one, the
      first IPv6 address. */
  predicate LeadsAt(inst: Instance, ips: seq<Option<Addr>>, i: nat) {
    IsFirst(ips, i, true) || (inst.ipv6Enabled && HasNone(ips, true) && IsFirst(ips, i, false))
  }

  ghost predicate Leads(inst: Instance, p: Peer, a: Addr) {
    p.email != "" && exists i: nat :: LeadsAt(inst, p.allowedIPs, i) && p.allowedIPs[i] == Some(a)
  }

  lemma TargetLeads(inst: Instance, p: Peer, a: Addr)
    ensures TargetOf(inst, p) == Some(a) <==> Leads(inst, p, a)
  {
    FirstIPv4Is(p.allowedIPs);
    FirstIPv6Is(p.allowedIPs);
    if TargetOf(inst, p) == Some(a) {
      var v4 := FirstIPv4(p.allowedIPs).Some?;
      var i := FirstPosition(p.allowedIPs, v4);
    }
  }

  lemma {:induction false} FirstPosition(ips: seq<Option<Addr>>, v4: bool) returns (i: nat)
    requires !HasNone(ips, v4)
    ensures IsFirst(ips, i, v4)
  {
    if ips[0].Some? && ips[0].value.V4? == v4 {
      i := 0;
    } else {
      assert forall j :: 0 < j < |ips| ==> ips[j] == ips[1..][j - 1];
      i := FirstPosition(ips[1..], v4);
      i := i + 1;
    }
  }

  /** Peer i leads to a, and no later one of its email, among the first n, leads anywhere. */
  ghost predicate LastLeads(inst: Instance, n: nat, i: nat, a: Addr)
    requires n <= |inst.peers|
  {
    && i < n && Leads(inst, inst.peers[i], a)
    && forall j, b :: i < j < n && inst.peers[j].email == inst.peers[i].email ==> !Leads(inst, inst.peers[j], b)
  }

  /** The targets among the first n peers: for each email the last peer with it that leads anywhere. */
  ghost predicate LastTargets(inst: Instance, n: nat, r: map<string, Addr>)
    requires n <= |inst.peers|
  {
    && (forall e :: e in r ==> exists i: nat :: LastLeads(inst, n, i, r[e]) && inst.peers[i].email == e)
    && (forall i, a :: 0 <= i < n && Leads(inst, inst.peers[i], a) ==> inst.peers[i].email in r)
  }

  lemma {:induction false} TargetsLead(inst: Instance, n: nat)
    requires n <= |inst.peers|
    ensures LastTargets(inst, n, TargetsOf(inst, n))
  {
    if n > 0 {
      TargetsLead(inst, n - 1);
      var r, p := TargetsOf(inst, n), inst.peers[n - 1];
      forall a ensures TargetOf(inst, p) == Some(a) <==> Leads(inst, p, a) { TargetLeads(inst, p, a); }
      forall e | e in r ensures exists i: nat :: LastLeads(inst, n, i, r[e]) && inst.peers[i].email == e {
        if p.email == e && TargetOf(inst, p).Some? {
          assert LastLeads(inst, n, n - 1, r[e]);
        } else {
          var i: nat :| LastLeads(inst, n - 1, i, r[e]) && inst.peers[i].email == e;
          assert LastLeads(inst, n, i, r[e]);
        }
      }
    }
  }

  /** What the targets of an instance are. */
  lemma TargetsAre(inst: Instance)
    ensures LastTargets(inst, |inst.peers|, Targets(inst))
  {
    TargetsLead(inst, |inst.peers|);
  }

  method DesiredPeerTargets(inst: Instance) returns (r: map<string, Addr>)
    ensures r == Targets(inst)
  {
    r := map[];
    for i := 0 to |inst.peers|
      invariant r == TargetsOf(inst, i)
    {
      var t := TargetOf(inst, inst.peers[i]);
      if t.Some? { r := r[inst.peers[i].email := t.value]; }
    }
  }

  method DesiredKeys(expand: Expansion, inst: Instance) returns (r: set<Key>)
    ensures forall k :: k in r <==> Wants(expand, inst, k)
    ensures forall k :: k in r ==> k.email in Targets(inst)
  {
    r := {};
    var targets := DesiredPeerTargets(inst);
    for i := 0 to |inst.peers|
      invariant forall k :: k in r <==> exists j :: 0 <= j < i && PeerWants(expand, inst.peers[j], targets, k)
      invariant forall k :: k in r ==> k.email in targets
    {
      var keys := KeysOf(expand, inst.peers[i], targets);
      r := r + keys;
    }
  }

  method KeysOf(expand: Expansion, p: Peer, targets: map<string, Addr>) returns (r: set<Key>)
    ensures forall k :: k in r <==> PeerWants(expand, p, targets, k)
    ensures forall k :: k in r ==> k.email in targets
  {
    r := {};
    if p.email != "" && p.forwardedPorts != "" && p.email in targets {
      r := BothProtocols(p.email, expand(p.forwardedPorts));
    }
  }

  method BothProtocols(email: string, ports: seq<int>) returns (r: set<Key>)
    ensures forall k :: k in r <==> k.email == email && k.port in ports
  {
    r := {};
    for i := 0 to |ports|
      invariant forall k :: k in r <==> k.email == email && exists j :: 0 <= j < i && ports[j] == k.port
    {
      r := r + {Key(email, ports[i], Tcp), Key(email, ports[i], Udp)};
      forall k: Key | k.email == email && k.port == ports[i] ensures k in r { assert k.proto == Tcp || k.proto == Udp; }
    }
  }

  // ---------- Which keys are open ----------

  /** The keys open after a reconciliation: the wanted ones, without the new ones that could not be bound. */
  function OpenAfter(open: set<Key>, wanted: set<Key>, binds: Key -> bool): set<Key> {
    set k | k in wanted && (k in open || binds(k))
  }

  /** Reconciling again opens no less, and all of it once every bind succeeds; after that it changes nothing. */
  lemma ReconcilingConverges(open: set<Key>, wanted: set<Key>, first: Key -> bool, second: Key -> bool)
    ensures var once := OpenAfter(open, wanted, first);
      var twice := OpenAfter(once, wanted, second);
      && once <= twice <= wanted
      && ((forall k :: k in wanted && k !in once ==> second(k)) <==> twice == wanted)
      && (once == wanted ==> twice == once)
  {
    var once := OpenAfter(open, wanted, first);
    var twice := OpenAfter(once, wanted, second);
    if twice == wanted {
      forall k | k in wanted && k !in once ensures second(k) { assert k in twice; }
    }
  }

  // ---------- The supervisor ----------

  class Listener {
    const key: Key
    /** How often it was closed. */
    var closings: nat

    constructor (key: Key)
      ensures this.key == key && closings == 0
    {
      this.key, closings := key, 0;
    }

    method Close()
      modifies this
      ensures closings == old(closings) + 1
    {
      closings := closings + 1;
    }
  }

  class PortForwards {
    const expand: Expansion
    var peerTargets: map<string, Addr>
    var listeners: map<Key, Listener>

    /** Every listener is open and under its own key, and every key has a target. */
    ghost predicate Valid()
      reads this, listeners.Values
    {
      && (forall k :: k in listeners ==> listeners[k].key == k && listeners[k].closings == 0)
      && (forall k :: k in listeners ==> k.email in peerTargets)
    }

    constructor (expand: Expansion)
      ensures Valid() && this.expand == expand && listeners == map[] && peerTargets == map[]
    {
      this.expand, peerTargets, listeners := expand, map[], map[];
    }

    /** The address a new connection is led to. */
    method TargetFor(email: string) returns (r: Option<Addr>)
      ensures r == if email in peerTargets then Some(peerTargets[email]) else None
      ensures Valid() ==> forall k :: k in listeners && k.email == email ==> r.Some?
    {
      r := if email in peerTargets then Some(peerTargets[email]) else None;
    }

    /** Takes the unwanted listeners out of the map. */
    method TakeUnwanted(wanted: set<Key>) returns (toClose: seq<Listener>)
      requires forall k :: k in listeners ==> listeners[k].key == k
      modifies this`listeners
      ensures listeners == map k | k in old(listeners) && k in wanted :: old(listeners)[k]
      ensures forall ln :: ln in toClose <==> ln.key in old(listeners) && ln.key !in wanted && old(listeners)[ln.key] == ln
      ensures forall i, j :: 0 <= i < j < |toClose| ==> toClose[i] != toClose[j]
    {
      toClose := [];
      var todo := listeners.Keys;
      while todo != {}
        invariant todo <= old(listeners).Keys
        invariant forall k :: k in listeners <==> k in old(listeners) && (k in todo || k in wanted)
        invariant forall k :: k in listeners ==> listeners[k] == old(listeners)[k]
        invariant forall ln :: ln in toClose <==>
          ln.key in old(listeners) && ln.key !in todo && ln.key !in wanted && old(listeners)[ln.key] == ln
        invariant forall i, j :: 0 <= i < j < |toClose| ==> toClose[i] != toClose[j]
        decreases todo
      {
        var key :| key in todo;
        todo := todo - {key};
        if key !in wanted {
          var ln := listeners[key];
          assert ln !in toClose;
          toClose := toClose + [ln];
          listeners := listeners - {key};
        }
      }
    }

    method CloseAll(toClose: seq<Listener>)
      requires forall i, j :: 0 <= i < j < |toClose| ==> toClose[i] != toClose[j]
      modifies set ln | ln in toClose
      ensures forall ln :: ln in toClose ==> ln.closings == old(ln.closings) + 1
    {
      for i := 0 to |toClose|
        invariant forall j :: 0 <= j < i ==> toClose[j].closings == old(toClose[j].closings) + 1
        invariant forall j :: i <= j < |toClose| ==> toClose[j].closings == old(toClose[j].closings)
      {
        toClose[i].Close();
      }
    }

    /** Opens a listener for every key that can be bound. */
    method OpenAll(toOpen: set<Key>, binds: Key -> bool)
      requires toOpen !! listeners.Keys
      modifies this`listeners
      ensures forall k :: k in listeners <==> k in old(listeners) || (k in toOpen && binds(k))
      ensures forall k :: k in old(listeners) ==> listeners[k] == old(listeners)[k]
      ensures forall k :: k in toOpen && binds(k) ==> fresh(listeners[k]) && listeners[k].key == k && listeners[k].closings == 0
    {
      var todo := toOpen;
      while todo != {}
        invariant todo <= toOpen
        invariant forall k :: k in listeners <==> k in old(listeners) || (k in toOpen - todo && binds(k))
        invariant forall k :: k in old(listeners) ==> listeners[k] == old(listeners)[k]
        invariant forall k :: k in toOpen - todo && binds(k) ==> fresh(listeners[k]) && listeners[k].key == k && listeners[k].closings == 0
        decreases todo
      {
        var key :| key in todo;
        todo := todo - {key};
        if binds(key) {
          var ln := new Listener(key);
          listeners := listeners[key := ln];
        }
      }
    }

    /** Brings the open listeners in line with what the instance wants: what is wanted and open stays as it is, what
        is not wanted is closed once, and every other wanted key is opened if it can be bound. */
    method Reconcile(inst: Instance, binds: Key -> bool) returns (ghost wanted: set<Key>)
      requires Valid()
      modifies this, listeners.Values
      ensures Valid() && peerTargets == Targets(inst) && forall k :: k in wanted <==> Wants(expand, inst, k)
      ensures listeners.Keys == OpenAfter(old(listeners.Keys), wanted, binds)
      ensures forall k :: k in old(listeners) && k in wanted ==> listeners[k] == old(listeners)[k]
      ensures forall k :: k in old(listeners) && k !in wanted ==> old(listeners)[k].closings == 1
      ensures forall k :: k in listeners && k !in old(listeners) ==> fresh(listeners[k])
      ensures old(listeners.Keys) == wanted ==> listeners == old(listeners)
    {
      var wantTargets := DesiredPeerTargets(inst);
      var wantKeys := DesiredKeys(expand, inst);
      wanted := wantKeys;
      Align(wantTargets, wantKeys, binds);
    }

    method Align(wantTargets: map<string, Addr>, wantKeys: set<Key>, binds: Key -> bool)
      requires Valid() && forall k :: k in wantKeys ==> k.email in wantTargets
      modifies this, listeners.Values
      ensures Valid() && peerTargets == wantTargets
      ensures listeners.Keys == OpenAfter(old(listeners.Keys), wantKeys, binds)
      ensures forall k :: k in old(listeners) && k in wantKeys ==> listeners[k] == old(listeners)[k]
      ensures forall k :: k in old(listeners) && k !in wantKeys ==> old(listeners)[k].closings == 1
      ensures forall k :: k in listeners && k !in old(listeners) ==> fresh(listeners[k])
    {
      peerTargets := wantTargets;
      var toClose := TakeUnwanted(wantKeys);
      var toOpen := wantKeys - listeners.Keys;
      forall k | k in old(listeners) && k !in wantKeys ensures old(listeners)[k] in toClose {
        assert old(listeners)[k].key == k;
      }
      CloseAll(toClose);
      OpenAll(toOpen, binds);
    }

    /** Closes every open listener. */
    method Close()
      requires Valid()
      modifies this, listeners.Values
      ensures Valid() && listeners == map[] && forall k :: k in old(listeners) ==> old(listeners)[k].closings == 1
    {
      var open := TakeUnwanted({});
      CloseAll(open);
      forall k | k in old(listeners) ensures old(listeners)[k] in open {
        assert old(listeners)[k].key == k;
      }
      assert listeners == map[];
    }
  }

  /** With the expansion that clients' texts get, a peer with a target wants both protocols of each port its text
      covers, up to the cap; and no peer wants more than twice the cap. */
  lemma WantedPorts(p: Peer, targets: map<string, Addr>, k: Key)
    requires p.email in targets && p.email != "" && p.forwardedPorts != "" && k.email == p.email
    ensures var expand := (text: string) => PortSpec.Sort(PortSpec.FirstPorts(text, PortSpec.MAX_PORTS));
      && |expand(p.forwardedPorts)| <= PortSpec.MAX_PORTS
      && (PeerWants(expand, p, targets, k) ==> k.port in PortSpec.Covered(p.forwardedPorts))
      && (|PortSpec.Covered(p.forwardedPorts)| <= PortSpec.MAX_PORTS ==>
            (PeerWants(expand, p, targets, k) <==> k.port in PortSpec.Covered(p.forwardedPorts)))
  {
    var ports := PortSpec.FirstPorts(p.forwardedPorts, PortSpec.MAX_PORTS);
    PortSpec.ExpansionCovers(p.forwardedPorts, PortSpec.MAX_PORTS);
    PortSpec.Sorted(ports);
    if |PortSpec.Covered(p.forwardedPorts)| <= PortSpec.MAX_PORTS {
      PortSpec.FullListCovers(PortSpec.Sort(ports), PortSpec.Covered(p.forwardedPorts));
    }
  }
}
