/**
 One connection per peer, crates/lattice-net/src/mesh.rs.

 `Mesh` is the registry object.  The rest of the module is the simultaneous open as a transition
 system over two devices: dials, adoptions at either end and close notices that arrive late, in
 any order.
 */
module Mesh {
  import opened Wrappers

  datatype Role = Dialer | Listener

  datatype Verdict = Insert | KeepExisting | Replace

  /** `adopt`'s rule, from the dialer of the live connection registered, if any, and of the new one. */
  function Decide(live: Option<nat>, dialer: nat): Verdict {
    if live.None? then Insert else if live.value <= dialer then KeepExisting else Replace
  }

  // ---------- The registry object ----------

  /** One end of a connection; `open` is this end's view. */
  class Link {
    const peer: nat
    const role: Role
    var open: bool

    constructor (peer: nat, role: Role)
      ensures this.peer == peer && this.role == role && open
    {
      this.peer, this.role, this.open := peer, role, true;
    }
  }

  class Registry {
    const local: nat
    var peers: map<nat, Link>

    constructor (local: nat)
      ensures this.local == local && peers == map[]
    {
      this.local := local;
      peers := map[];
    }

    function DialerOf(link: Link): nat {
      if link.role.Dialer? then local else link.peer
    }

    ghost predicate Valid()
      reads this
    {
      forall p | p in peers :: peers[p].peer == p
    }

    /** The registered connection, if it is live. */
    function Get(peer: nat): (r: Option<Link>)
      reads this, peers.Values
      ensures Valid() && r.Some? ==> r.value.peer == peer && r.value.open && r.value in peers.Values
    {
      if peer in peers && peers[peer].open then Some(peers[peer]) else None
    }

    /** Registers a connection; what it keeps, what it closes and what it leaves alone. */
    method Adopt(conn: Link) returns (kept: Link)
      requires Valid() && conn !in peers.Values
      modifies this`peers, conn`open, peers.Values`open
      ensures Valid()
      ensures var live := old(Get(conn.peer));
        var verdict := Decide(if live.Some? then Some(DialerOf(live.value)) else None, DialerOf(conn));
        && kept == (if verdict.KeepExisting? then live.value else conn)
        && peers == (if verdict.KeepExisting? then old(peers) else old(peers)[conn.peer := conn])
        && conn.open == (old(conn.open) && !verdict.KeepExisting?)
        && forall link | link in old(peers.Values) ::
             link.open == (old(link.open) && !(verdict.Replace? && link == live.value))
      ensures Get(conn.peer) == if kept.open then Some(kept) else None
      ensures forall p | p != conn.peer :: Get(p) == old(Get(p))
    {
      var peer := conn.peer;
      if peer in peers && peers[peer].open {
        var existing := peers[peer];
        assert existing in peers.Values;
        if DialerOf(existing) <= DialerOf(conn) {
          conn.open := false;
          return existing;
        }
        existing.open := false;
      }
      peers := peers[peer := conn];
      kept := conn;
    }

    method Forget(peer: nat)
      requires Valid()
      modifies this`peers, peers.Values`open
      ensures Valid()
      ensures peers == old(peers) - {peer}
      ensures forall link | link in old(peers.Values) ::
        link.open == (old(link.open) && !(peer in old(peers) && link == old(peers)[peer]))
      ensures Get(peer) == None
      ensures forall p | p != peer :: Get(p) == old(Get(p))
    {
      if peer in peers {
        var conn := peers[peer];
        peers := peers - {peer};
        conn.open := false;
      }
    }
  }

  // ---------- Two devices ----------

  datatype Side = Low | High {
    function Other(): Side {
      if Low? then High else Low
    }
  }

  /** A connection between the two devices; `serial` tells apart dials by the same device. */
  datatype Conn = Conn(dialer: Side, serial: nat)

  /** The two device ids, the lower one first. */
  datatype Ids = Ids(low: nat, high: nat) {
    predicate Valid() {
      low < high
    }

    function Of(side: Side): nat {
      if side.Low? then low else high
    }
  }

  datatype State = State(
    dialed: set<Conn>,
    adopted: set<(Side, Conn)>,
    shut: set<(Side, Conn)>,
    registry: map<Side, Conn>)

  predicate Init(s: State) {
    s == State({}, {}, {}, map[])
  }

  function LiveAt(ids: Ids, s: State, end: Side): Option<nat> {
    if end in s.registry && (end, s.registry[end]) !in s.shut then Some(ids.Of(s.registry[end].dialer)) else None
  }

  function Adopted(ids: Ids, s: State, end: Side, c: Conn): State {
    var taken := s.(adopted := s.adopted + {(end, c)});
    match Decide(LiveAt(ids, s, end), ids.Of(c.dialer))
    case Insert => taken.(registry := s.registry[end := c])
    case KeepExisting => taken.(shut := s.shut + {(end, c)})
    case Replace => taken.(registry := s.registry[end := c], shut := s.shut + {(end, s.registry[end])})
  }

  /** Which links are open. */
  ghost function OpenNow(links: set<Link>): map<Link, bool>
    reads links
  {
    map link | link in links :: link.open
  }

  /**
   `peers` is the registry device `end` has in `s`: each link stands for a connection to the other device,
   in the dialer's role exactly at the end that dialed it, and is open unless it is shut at this end.
   */
  ghost predicate Stands(local: nat, peers: map<nat, Link>, opens: map<Link, bool>, stands: map<Link, Conn>, ids: Ids,
                         s: State, end: Side)
  {
    var other := if end.Low? then ids.high else ids.low;
    && local == (if end.Low? then ids.low else ids.high) && opens.Keys == stands.Keys
    && (forall link | link in stands ::
          && link.peer == other && (link.role.Dialer? <==> stands[link].dialer == end)
          && (opens[link] <==> (end, stands[link]) !in s.shut))
    && (forall a, b | a in stands && b in stands && stands[a] == stands[b] :: a == b)
    && (end in s.registry <==> other in peers)
    && (end in s.registry ==> peers[other] in stands && stands[peers[other]] == s.registry[end])
  }

  /** What `Adopt` does to the registry of one device is what adopting the connection does in the system of two. */
  method AdoptIsAdopted(registry: Registry, ghost stands: map<Link, Conn>, ids: Ids, ghost s: State, end: Side,
                        conn: Link, ghost c: Conn)
    returns (kept: Link)
    requires ids.Valid() && registry.Valid()
    requires Stands(registry.local, registry.peers, OpenNow(stands.Keys), stands, ids, s, end)
    requires conn !in stands && conn !in registry.peers.Values && c !in stands.Values
    requires conn.peer == (if end.Low? then ids.high else ids.low) && (conn.role.Dialer? <==> c.dialer == end)
    requires conn.open <==> (end, c) !in s.shut
    modifies registry`peers, conn`open, registry.peers.Values`open
    ensures registry.Valid()
    ensures var now := stands[conn := c];
      Stands(registry.local, registry.peers, OpenNow(now.Keys), now, ids, Adopted(ids, s, end, c), end)
  {
    ghost var opens, peers, open := OpenNow(stands.Keys), registry.peers, conn.open;
    kept := registry.Adopt(conn);
    AdoptedStands(registry.local, peers, opens, stands, ids, s, end, conn, open, c, registry.peers,
                  OpenNow(stands[conn := c].Keys));
  }

  /** The rule, spelled out: the lower dialer's connection stays. */
  ghost predicate KeepsLower(local: nat, peers: map<nat, Link>, opens: map<Link, bool>, conn: Link, open: bool,
                             peers': map<nat, Link>, opens': map<Link, bool>)
    requires conn.peer in peers ==> peers[conn.peer] in opens
  {
    var live := conn.peer in peers && opens[peers[conn.peer]];
    var dialer := if conn.role.Dialer? then local else conn.peer;
    var stays := live && (if peers[conn.peer].role.Dialer? then local else conn.peer) <= dialer;
    && peers' == (if stays then peers else peers[conn.peer := conn])
    && opens'.Keys == opens.Keys + {conn} && opens'[conn] == (open && !stays)
    && forall link | link in opens && link != conn ::
         opens'[link] == (opens[link] && !(live && !stays && link == peers[conn.peer]))
  }

  lemma AdoptedStands(local: nat, peers: map<nat, Link>, opens: map<Link, bool>, stands: map<Link, Conn>, ids: Ids,
                      s: State, end: Side, conn: Link, open: bool, c: Conn,
                      peers': map<nat, Link>, opens': map<Link, bool>)
    requires ids.Valid() && Stands(local, peers, opens, stands, ids, s, end)
    requires conn !in stands && c !in stands.Values
    requires conn.peer == (if end.Low? then ids.high else ids.low) && (conn.role.Dialer? <==> c.dialer == end)
    requires (open <==> (end, c) !in s.shut) && KeepsLower(local, peers, opens, conn, open, peers', opens')
    ensures Stands(local, peers', opens', stands[conn := c], ids, Adopted(ids, s, end, c), end)
  {
  }

  /** And a close at one end can always be heard at the other. */
  lemma ClosesAreHeard(ids: Ids, s: State, c: Conn)
    requires c in s.dialed
    ensures (Low, c) in s.shut ==> Next(ids, s, HearClose(High, c), s.(shut := s.shut + {(High, c)}))
    ensures (High, c) in s.shut ==> Next(ids, s, HearClose(Low, c), s.(shut := s.shut + {(Low, c)}))
  {
  }

  datatype Step = Dial(c: Conn) | Adopt(end: Side, c: Conn) | HearClose(end: Side, c: Conn)

  /** `connect` checks the registry and then dials without holding it, so a dial is always possible. */
  predicate Next(ids: Ids, s: State, step: Step, s': State) {
    match step
    case Dial(c) => c !in s.dialed && s' == s.(dialed := s.dialed + {c})
    case Adopt(end, c) => c in s.dialed && (end, c) !in s.adopted && s' == Adopted(ids, s, end, c)
    case HearClose(end, c) => c in s.dialed && (end.Other(), c) in s.shut && s' == s.(shut := s.shut + {(end, c)})
  }

  ghost predicate IsRun(ids: Ids, run: seq<State>, steps: seq<Step>) {
    && |run| == |steps| + 1
    && Init(run[0])
    && forall i, j | 0 <= i < |steps| && j == i + 1 :: Next(ids, run[i], steps[i], run[j])
  }

  predicate Complete(s: State) {
    forall c, end: Side | c in s.dialed :: (end, c) in s.adopted
  }

  /** Both registries hold the same connection, it is live at both ends, and no other is live at either. */
  ghost predicate ConvergedOn(s: State, w: Conn) {
    && Low in s.registry && s.registry[Low] == w
    && High in s.registry && s.registry[High] == w
    && (Low, w) !in s.shut && (High, w) !in s.shut
    && forall c, end: Side | c in s.dialed && c != w :: (end, c) in s.shut
  }

  /** The only connection dialed by the lowest of the devices that dialed. */
  predicate UniqueBest(dialed: set<Conn>, w: Conn) {
    && w in dialed
    && forall c | c in dialed && c != w :: w.dialer.Low? && c.dialer.High?
  }

  // ---------- Convergence ----------

  ghost predicate Sound(s: State) {
    && (forall end: Side, c | (end, c) in s.adopted :: c in s.dialed)
    && (forall end: Side | end in s.registry :: (end, s.registry[end]) in s.adopted)
    && (forall end: Side, c | (end, c) in s.adopted ::
          (end, c) in s.shut || (end in s.registry && s.registry[end] == c))
  }

  ghost predicate WinnerSafe(s: State, w: Conn) {
    forall end: Side ::
      && (end, w) !in s.shut
      && ((end, w) in s.adopted ==> end in s.registry && s.registry[end] == w)
  }

  lemma SoundKept(ids: Ids, s: State, step: Step, s': State)
    requires Sound(s) && Next(ids, s, step, s')
    ensures Sound(s') && s.dialed <= s'.dialed
  {
  }

  lemma WinnerKept(ids: Ids, s: State, step: Step, s': State, w: Conn)
    requires ids.Valid() && Sound(s) && Next(ids, s, step, s')
    requires forall c | c in s'.dialed && c != w :: w.dialer.Low? && c.dialer.High?
    requires WinnerSafe(s, w)
    ensures WinnerSafe(s', w)
  {
  }

  lemma {:induction false} RunInvariant(ids: Ids, run: seq<State>, steps: seq<Step>, w: Conn, n: nat)
    requires ids.Valid() && IsRun(ids, run, steps) && n < |run|
    requires forall c | c in run[n].dialed && c != w :: w.dialer.Low? && c.dialer.High?
    ensures Sound(run[n]) && WinnerSafe(run[n], w)
  {
    if n > 0 {
      assert Next(ids, run[n - 1], steps[n - 1], run[n]);
      RunInvariant(ids, run, steps, w, n - 1);
      SoundKept(ids, run[n - 1], steps[n - 1], run[n]);
      WinnerKept(ids, run[n - 1], steps[n - 1], run[n], w);
    }
  }

  /** What a complete run settles on: if one connection is the unique best, that one. */
  lemma CompleteRunsConverge(ids: Ids, run: seq<State>, steps: seq<Step>, w: Conn)
    requires ids.Valid() && IsRun(ids, run, steps)
    requires UniqueBest(run[|steps|].dialed, w) && Complete(run[|steps|])
    ensures ConvergedOn(run[|steps|], w)
  {
    RunInvariant(ids, run, steps, w, |steps|);
    var s := run[|steps|];
    assert (Low, w) in s.adopted && (High, w) in s.adopted;
    forall c, end: Side | c in s.dialed && c != w
      ensures (end, c) in s.shut
    {
      assert (end, c) in s.adopted && (end, w) in s.adopted;
    }
  }

  // ---------- Divergence ----------

  ghost predicate EndsAt(ids: Ids, s: State) {
    exists run, steps :: IsRun(ids, run, steps) && run[|steps|] == s
  }

  lemma InitReachable(ids: Ids, s: State)
    requires Init(s)
    ensures EndsAt(ids, s)
  {
    var steps: seq<Step> := [];
    assert IsRun(ids, [s], steps) && [s][|steps|] == s;
  }

  lemma StepReachable(ids: Ids, s: State, step: Step, s': State)
    requires EndsAt(ids, s) && Next(ids, s, step, s')
    ensures EndsAt(ids, s')
  {
    var run, steps :| IsRun(ids, run, steps) && run[|steps|] == s;
    var run', steps' := run + [s'], steps + [step];
    forall i, j | 0 <= i < |steps'| && j == i + 1
      ensures Next(ids, run'[i], steps'[i], run'[j])
    {
      if i < |steps| {
        assert Next(ids, run[i], steps[i], run[j]);
      }
    }
    assert IsRun(ids, run', steps') && run'[|steps'|] == s';
  }

  lemma {:induction false} DialAll(ids: Ids, conns: set<Conn>)
    ensures EndsAt(ids, State(conns, {}, {}, map[]))
    decreases |conns|
  {
    if conns == {} {
      InitReachable(ids, State({}, {}, {}, map[]));
    } else {
      var c :| c in conns;
      DialAll(ids, conns - {c});
      assert conns - {c} + {c} == conns;
      StepReachable(ids, State(conns - {c}, {}, {}, map[]), Dial(c), State(conns, {}, {}, map[]));
    }
  }

  /** An end that registers a connection of the best dialer first keeps it through every other adoption. */
  lemma {:induction false} AdoptRest(ids: Ids, s: State, end: Side, kept: Conn, rest: set<Conn>) returns (s': State)
    requires ids.Valid() && EndsAt(ids, s) && Sound(s)
    requires rest <= s.dialed && forall c | c in rest ::
      (end, c) !in s.adopted && ids.Of(kept.dialer) <= ids.Of(c.dialer)
    requires end in s.registry && s.registry[end] == kept && (end, kept) !in s.shut
    ensures EndsAt(ids, s') && Sound(s') && s'.dialed == s.dialed
    ensures s'.registry == s.registry && s'.adopted == s.adopted + set c | c in rest :: (end, c)
    ensures forall e: Side, c | (e, c) in s'.shut :: (e, c) in s.shut || (e == end && c in rest)
    decreases |rest|
  {
    if rest == {} {
      s' := s;
      assert s.adopted + (set c | c in rest :: (end, c)) == s.adopted;
    } else {
      var c :| c in rest;
      var mid := Adopted(ids, s, end, c);
      SoundKept(ids, s, Adopt(end, c), mid);
      StepReachable(ids, s, Adopt(end, c), mid);
      s' := AdoptRest(ids, mid, end, kept, rest - {c});
      assert (set x | x in rest :: (end, x)) == (set x | x in rest - {c} :: (end, x)) + {(end, c)};
    }
  }

  /**
   Two connections by the best dialer: if each device adopts a different one first, both keep
   what the other has closed, and nothing later undoes it.
   */
  lemma DuplicatesDiverge(ids: Ids, conns: set<Conn>, c1: Conn, c2: Conn) returns (s: State)
    requires ids.Valid() && c1 in conns && c2 in conns && c1 != c2 && c1.dialer == c2.dialer
    requires forall c | c in conns :: ids.Of(c1.dialer) <= ids.Of(c.dialer)
    ensures EndsAt(ids, s) && s.dialed == conns && Complete(s)
    ensures s.registry == map[Low := c1, High := c2]
    ensures forall w :: !ConvergedOn(s, w)
  {
    var s0 := State(conns, {}, {}, map[]);
    DialAll(ids, conns);
    var s1 := Adopted(ids, s0, Low, c1);
    SoundKept(ids, s0, Adopt(Low, c1), s1);
    StepReachable(ids, s0, Adopt(Low, c1), s1);
    var s2 := Adopted(ids, s1, High, c2);
    SoundKept(ids, s1, Adopt(High, c2), s2);
    StepReachable(ids, s1, Adopt(High, c2), s2);
    var s3 := AdoptRest(ids, s2, Low, c1, conns - {c1});
    s := AdoptRest(ids, s3, High, c2, conns - {c2});
    assert s2.adopted <= s3.adopted <= s.adopted;
    assert (Low, c1) in s2.adopted && (High, c2) in s2.adopted;
    forall c, end: Side | c in conns
      ensures (end, c) in s.adopted
    {
      if end.Low? {
        assert c == c1 || c in conns - {c1};
        assert (Low, c) in s3.adopted;
      } else {
        assert c == c2 || c in conns - {c2};
      }
    }
  }

  /** Every complete run over these connections settles both devices on one live connection. */
  ghost predicate AlwaysConverges(ids: Ids, conns: set<Conn>) {
    forall s | EndsAt(ids, s) && s.dialed == conns && Complete(s) :: exists w :: ConvergedOn(s, w)
  }

  /**
   The rule settles a simultaneous open, whatever the interleaving, exactly when the lowest device
   that dialed did so once.  Dialing twice is the case it does not cover.
   */
  lemma ConvergesIffBestDialedOnce(ids: Ids, conns: set<Conn>)
    requires ids.Valid() && conns != {}
    ensures AlwaysConverges(ids, conns) <==> exists w :: UniqueBest(conns, w)
  {
    if w :| UniqueBest(conns, w) {
      forall s | EndsAt(ids, s) && s.dialed == conns && Complete(s)
        ensures exists w :: ConvergedOn(s, w)
      {
        var run, steps :| IsRun(ids, run, steps) && run[|steps|] == s;
        CompleteRunsConverge(ids, run, steps, w);
      }
    } else {
      var c1 :| c1 in conns && forall c | c in conns :: ids.Of(c1.dialer) <= ids.Of(c.dialer) by {
        LowestExists(ids, conns);
      }
      assert !UniqueBest(conns, c1);
      var c2 :| c2 in conns && c2 != c1 && !(c1.dialer.Low? && c2.dialer.High?);
      assert ids.Of(c1.dialer) <= ids.Of(c2.dialer);
      var s := DuplicatesDiverge(ids, conns, c1, c2);
      assert !exists w :: ConvergedOn(s, w);
    }
  }

  lemma LowestExists(ids: Ids, conns: set<Conn>)
    requires ids.Valid() && conns != {}
    ensures exists c1 :: c1 in conns && forall c | c in conns :: ids.Of(c1.dialer) <= ids.Of(c.dialer)
  {
    var c0 :| c0 in conns;
    if low :| low in conns && low.dialer.Low? {
      assert forall c | c in conns :: ids.Of(low.dialer) <= ids.Of(c.dialer);
    } else {
      assert forall c | c in conns :: ids.Of(c0.dialer) <= ids.Of(c.dialer);
    }
  }
}
