/**
 Introductions: `roster_for` and `accept_introductions` in crates/latticed/src/node.rs, and
 `Introduction` in crates/lattice-net/src/control.rs.  One request is handled as a whole; what a
 pairing might do to the store between its steps is not part of this model.
 */
module Provision {
  import opened Wrappers
  import opened Trust

  /** A key as it arrives: 32 bytes that may not be a point of the curve. */
  datatype RawKey = Point(key: Key) | Garbage

  datatype Introduction = Introduction(rawKey: RawKey, name: string, platform: string)

  datatype Response = Refused | Provisioned(added: nat, alreadyKnown: nat)

  function Of(peer: PairedPeer): Introduction {
    Introduction(Point(peer.key), peer.name, peer.platform)
  }

  function RosterFor(target: Id, all: seq<PairedPeer>): (roster: seq<Introduction>)
    ensures forall i | 0 <= i < |roster| :: roster[i].rawKey.Point?
  {
    if all == [] then []
    else (if all[0].id != target then [Of(all[0])] else []) + RosterFor(target, all[1..])
  }

  /** Everyone but the target, and nobody else. */
  lemma {:induction false} RosterIsEveryoneElse(target: Id, all: seq<PairedPeer>, p: PairedPeer)
    ensures p in all && p.id != target ==> Of(p) in RosterFor(target, all)
    ensures forall r | r in RosterFor(target, all) :: exists q :: q in all && q.id != target && r == Of(q)
  {
    if all != [] {
      RosterIsEveryoneElse(target, all[1..], p);
      forall r | r in RosterFor(target, all)
        ensures exists q :: q in all && q.id != target && r == Of(q)
      {
        if !(all[0].id != target && r == Of(all[0])) {
          assert r in RosterFor(target, all[1..]);
        }
      }
    }
  }

  // ---------- One device ----------

  /** Who handles a request, and whom it comes from. */
  datatype Call = Call(hash: Hash, self: Id, from: Id)

  function Peer(c: Call, i: Introduction): PairedPeer
    requires i.rawKey.Point?
  {
    Introduced(c.hash, i.rawKey.key, i.name, i.platform, c.from)
  }

  /** Where the handler stands in its loop. */
  datatype Progress = Progress(peers: Peers, added: nat, alreadyKnown: nat, refused: bool)

  /** One introduction; `write` is what becomes of the file. */
  function Introduce(c: Call, p: Progress, i: Introduction, write: Write): Progress {
    if i.rawKey.Garbage? then p.(refused := true)
    else
      var peer := Peer(c, i);
      if peer.id == c.self || peer.id in p.peers then p.(alreadyKnown := p.alreadyKnown + 1)
      else if !write.Written? then p.(peers := p.peers[peer.id := peer], refused := true)
      else p.(peers := p.peers[peer.id := peer], added := p.added + 1)
  }

  /** The rest of the loop, up to an introduction that is refused. */
  function IntroduceAll(c: Call, p: Progress, roster: seq<Introduction>, writes: seq<Write>): Progress
    requires |roster| <= |writes|
    decreases |roster|
  {
    if roster == [] || p.refused then p
    else IntroduceAll(c, Introduce(c, p, roster[0], writes[0]), roster[1..], writes[1..])
  }

  function Handled(c: Call, peers: Peers, roster: seq<Introduction>, writes: seq<Write>): (Peers, Response)
    requires |roster| <= |writes|
  {
    if c.from !in peers then (peers, Refused)
    else
      var p := IntroduceAll(c, Progress(peers, 0, 0, false), roster, writes);
      (p.peers, if p.refused then Refused else Provisioned(p.added, p.alreadyKnown))
  }

  class Node {
    const hash: Hash
    const self: Id
    const store: TrustStore

    constructor (hash: Hash, self: Id, store: TrustStore)
      ensures this.hash == hash && this.self == self && this.store == store
    {
      this.hash, this.self, this.store := hash, self, store;
    }

    function Knows(id: Id): bool
      reads store
    {
      id in store.peers
    }

    /** The file holds what the memory does. */
    ghost predicate OnDisk()
      reads store
    {
      Load(store.file) == Success(store.peers)
    }

    /** One turn of the loop: what becomes of the store, and which way the loop goes on. */
    method Accept(from: Id, i: Introduction, write: Write) returns (refused: bool, isNew: bool)
      requires store.Valid()
      modifies store
      ensures store.Valid()
      ensures var p := Introduce(Call(hash, self, from), Progress(old(store.peers), 0, 0, false), i, write);
        && store.peers == p.peers && refused == p.refused
        && (!refused ==> p.added == (if isNew then 1 else 0) && p.alreadyKnown == 1 - p.added)
      ensures !refused && old(OnDisk()) ==> OnDisk()
    {
      if i.rawKey.Garbage? {
        return true, false;
      }
      var peer := Peer(Call(hash, self, from), i);
      if peer.id == self || Knows(peer.id) {
        return false, false;
      }
      var saved := store.Insert(peer, write);
      return saved.Failure?, true;
    }

    method AcceptIntroductions(from: Id, roster: seq<Introduction>, writes: seq<Write>) returns (r: Response)
      requires store.Valid() && |roster| <= |writes|
      modifies store
      ensures store.Valid()
      ensures (store.peers, r) == Handled(Call(hash, self, from), old(store.peers), roster, writes)
      ensures r.Provisioned? && old(OnDisk()) ==> OnDisk()
    {
      if !Knows(from) {
        return Refused;
      }
      var added, alreadyKnown := 0, 0;
      ghost var c := Call(hash, self, from);
      ghost var end := IntroduceAll(c, Progress(store.peers, 0, 0, false), roster, writes);
      for i := 0 to |roster|
        invariant store.Valid() && (old(OnDisk()) ==> OnDisk())
        invariant IntroduceAll(c, Progress(store.peers, added, alreadyKnown, false), roster[i..], writes[i..]) == end
      {
        assert roster[i..][0] == roster[i] && roster[i..][1..] == roster[i + 1..];
        assert writes[i..][0] == writes[i] && writes[i..][1..] == writes[i + 1..];
        var refused, isNew := Accept(from, roster[i], writes[i]);
        if refused {
          return Refused;
        }
        if isNew {
          added := added + 1;
        } else {
          alreadyKnown := alreadyKnown + 1;
        }
      }
      r := Provisioned(added, alreadyKnown);
    }
  }

  /** A record made from an introduction in the roster. */
  ghost predicate FromRoster(c: Call, peer: PairedPeer, roster: seq<Introduction>) {
    exists i :: i in roster && i.rawKey.Point? && peer == Peer(c, i)
  }

  /** What a request can do to a store: add records of the introduced, vouched for by the introducer. */
  ghost predicate OnlyAdds(c: Call, peers: Peers, peers': Peers, roster: seq<Introduction>) {
    && (forall id | id in peers :: id in peers' && peers'[id] == peers[id])
    && (forall id | id in peers' && id !in peers ::
          id != c.self && peers'[id].id == id && FromRoster(c, peers'[id], roster))
  }

  predicate KnownOrSelf(c: Call, peers: Peers, i: Introduction) {
    i.rawKey.Point? && (c.hash(i.rawKey.key) == c.self || c.hash(i.rawKey.key) in peers)
  }

  lemma OneOnlyAdds(c: Call, p: Progress, roster: seq<Introduction>, write: Write)
    requires roster != []
    ensures OnlyAdds(c, p.peers, Introduce(c, p, roster[0], write).peers, roster)
  {
    if roster[0].rawKey.Point? {
      assert FromRoster(c, Peer(c, roster[0]), roster);
    }
  }

  lemma OnlyAddsTwice(c: Call, a: Peers, b: Peers, d: Peers, roster: seq<Introduction>)
    requires roster != [] && OnlyAdds(c, a, b, roster) && OnlyAdds(c, b, d, roster[1..])
    ensures OnlyAdds(c, a, d, roster)
  {
    forall id | id in d && id !in a
      ensures id != c.self && d[id].id == id && FromRoster(c, d[id], roster)
    {
      if id !in b {
        var i :| i in roster[1..] && i.rawKey.Point? && d[id] == Peer(c, i);
        assert i in roster;
      }
    }
  }

  lemma {:induction false} AllOnlyAdds(c: Call, p: Progress, roster: seq<Introduction>, writes: seq<Write>)
    requires |roster| <= |writes|
    ensures OnlyAdds(c, p.peers, IntroduceAll(c, p, roster, writes).peers, roster)
    decreases |roster|
  {
    if roster != [] && !p.refused {
      var p' := Introduce(c, p, roster[0], writes[0]);
      OneOnlyAdds(c, p, roster, writes[0]);
      AllOnlyAdds(c, p', roster[1..], writes[1..]);
      OnlyAddsTwice(c, p.peers, p'.peers, IntroduceAll(c, p, roster, writes).peers, roster);
    }
  }

  lemma {:induction false} AllCounted(c: Call, p: Progress, roster: seq<Introduction>, writes: seq<Write>)
    requires |roster| <= |writes| && !IntroduceAll(c, p, roster, writes).refused
    ensures var q := IntroduceAll(c, p, roster, writes);
      && q.added + q.alreadyKnown == p.added + p.alreadyKnown + |roster|
      && |q.peers| + p.added == |p.peers| + q.added
      && forall i | i in roster :: KnownOrSelf(c, q.peers, i)
    decreases |roster|
  {
    if roster != [] && !p.refused {
      var p' := Introduce(c, p, roster[0], writes[0]);
      AllCounted(c, p', roster[1..], writes[1..]);
      AllOnlyAdds(c, p', roster[1..], writes[1..]);
      assert KnownOrSelf(c, p'.peers, roster[0]);
    }
  }

  /**
   Handling a request never changes or removes a record and never adds the device itself.  If it
   succeeds, everyone introduced is known, or is the device itself; the counts say how many were new
   and add up to the roster.  Who is not paired is refused without a change.
   */
  lemma HandlingOnlyAdds(c: Call, peers: Peers, roster: seq<Introduction>, writes: seq<Write>)
    requires |roster| <= |writes|
    ensures var (peers', r) := Handled(c, peers, roster, writes);
      && OnlyAdds(c, peers, peers', roster)
      && (c.from !in peers ==> r.Refused? && peers' == peers)
      && (r.Provisioned? ==>
            && r.added + r.alreadyKnown == |roster|
            && |peers'| == |peers| + r.added
            && forall i | i in roster :: KnownOrSelf(c, peers', i))
  {
    var start := Progress(peers, 0, 0, false);
    AllOnlyAdds(c, start, roster, writes);
    if !IntroduceAll(c, start, roster, writes).refused {
      AllCounted(c, start, roster, writes);
    }
  }

  /** What ends the loop: an unusable key, or a record that is new, not the device's own, and cannot be written. */
  predicate Stops(c: Call, peers: Peers, i: Introduction, write: Write) {
    match i.rawKey
    case Garbage => true
    case Point(key) => c.hash(key) != c.self && c.hash(key) !in peers && write != Written
  }

  /** The loop gets as far as introduction `k`, and that one ends it. */
  ghost predicate EndsAt(c: Call, p: Progress, roster: seq<Introduction>, writes: seq<Write>, k: nat)
    requires |roster| <= |writes|
  {
    && k < |roster|
    && var before := IntroduceAll(c, p, roster[..k], writes);
       !before.refused && Stops(c, before.peers, roster[k], writes[k])
  }

  lemma EndsBehind(c: Call, p: Progress, roster: seq<Introduction>, writes: seq<Write>, k: nat)
    requires |roster| <= |writes| && roster != [] && !p.refused
    ensures EndsAt(c, p, roster, writes, k + 1) <==>
      EndsAt(c, Introduce(c, p, roster[0], writes[0]), roster[1..], writes[1..], k)
  {
    if k < |roster[1..]| {
      assert roster[..k + 1][1..] == roster[1..][..k];
    }
  }

  /** The loop refuses exactly if one of the introductions it gets to ends it. */
  lemma {:induction false} RefusedIff(c: Call, p: Progress, roster: seq<Introduction>, writes: seq<Write>)
    requires |roster| <= |writes| && !p.refused
    ensures IntroduceAll(c, p, roster, writes).refused <==> exists k :: EndsAt(c, p, roster, writes, k)
    decreases |roster|
  {
    if roster != [] {
      var next := Introduce(c, p, roster[0], writes[0]);
      assert roster[..0] == [];
      assert EndsAt(c, p, roster, writes, 0) <==> next.refused;
      if !next.refused {
        RefusedIff(c, next, roster[1..], writes[1..]);
        forall k: nat
          ensures EndsAt(c, p, roster, writes, k + 1) <==> EndsAt(c, next, roster[1..], writes[1..], k)
        {
          EndsBehind(c, p, roster, writes, k);
        }
        if k: nat :| EndsAt(c, p, roster, writes, k) {
          assert EndsAt(c, next, roster[1..], writes[1..], k - 1);
        }
      }
    }
  }

  lemma {:induction false} NoneRefused(c: Call, p: Progress, roster: seq<Introduction>, writes: seq<Write>)
    requires |roster| <= |writes| && !p.refused
    requires forall k | 0 <= k < |roster| :: roster[k].rawKey.Point? && writes[k].Written?
    ensures !IntroduceAll(c, p, roster, writes).refused
    decreases |roster|
  {
    if roster != [] {
      NoneRefused(c, Introduce(c, p, roster[0], writes[0]), roster[1..], writes[1..]);
    }
  }

  /** Saying the same again adds nothing. */
  lemma {:induction false} AgainAddsNothing(c: Call, p: Progress, roster: seq<Introduction>, writes: seq<Write>)
    requires |roster| <= |writes| && !p.refused
    requires forall i | i in roster :: KnownOrSelf(c, p.peers, i)
    ensures IntroduceAll(c, p, roster, writes) == p.(alreadyKnown := p.alreadyKnown + |roster|)
    decreases |roster|
  {
    if roster != [] {
      assert KnownOrSelf(c, p.peers, roster[0]);
      AgainAddsNothing(c, p.(alreadyKnown := p.alreadyKnown + 1), roster[1..], writes[1..]);
    }
  }

  // ---------- A round over every device ----------

  /** The stores of all devices, by device. */
  type Stores = map<Id, Peers>

  /** A master, the devices it has paired with in the order of its store, and that they have paired with it. */
  datatype Introducer = Introducer(hash: Hash, self: Id, trusted: seq<PairedPeer>) {
    ghost predicate PairedWith(stores: Stores) {
      && Ascending(trusted)
      && (forall p | p in trusted :: p.id == hash(p.key) && p.id in stores && self in stores[p.id])
    }

    function RosterTo(p: PairedPeer): seq<Introduction> {
      RosterFor(p.id, trusted)
    }
  }

  function AllSave(n: nat): (writes: seq<Write>)
    ensures |writes| == n && forall k | 0 <= k < n :: writes[k].Written?
  {
    seq(n, _ => Written)
  }

  /** The reply of one device to its roster, when its disk does not fail. */
  function Reply(m: Introducer, peers: Peers, p: PairedPeer): (Peers, Response) {
    var roster := m.RosterTo(p);
    Handled(Call(m.hash, p.id, m.self), peers, roster, AllSave(|roster|))
  }

  ghost predicate AllIn(devices: seq<PairedPeer>, stores: Stores) {
    forall p | p in devices :: p.id in stores
  }

  /** Changes the store of each device of a list, one after the other. */
  function Sweep(devices: seq<PairedPeer>, stores: Stores, update: (PairedPeer, Peers) -> Peers): (stores': Stores)
    requires AllIn(devices, stores)
    ensures stores'.Keys == stores.Keys
  {
    if devices == [] then stores
    else
      var p := devices[0];
      Sweep(devices[1..], stores[p.id := update(p, stores[p.id])], update)
  }

  lemma {:induction false} SweepSkips(devices: seq<PairedPeer>, stores: Stores, update: (PairedPeer, Peers) -> Peers,
                                      d: Id)
    requires AllIn(devices, stores) && d in stores && forall p | p in devices :: p.id != d
    ensures Sweep(devices, stores, update)[d] == stores[d]
  {
    if devices != [] {
      var p := devices[0];
      assert p in devices;
      SweepSkips(devices[1..], stores[p.id := update(p, stores[p.id])], update, d);
    }
  }

  /** Each device's store is changed once and from what it was at first, so the order is of no account. */
  lemma {:induction false} SweepByDevice(devices: seq<PairedPeer>, stores: Stores,
                                         update: (PairedPeer, Peers) -> Peers, p: PairedPeer)
    requires AllIn(devices, stores) && Ascending(devices) && p in devices
    ensures Sweep(devices, stores, update)[p.id] == update(p, stores[p.id])
  {
    var first, rest := devices[0], devices[1..];
    var stores' := stores[first.id := update(first, stores[first.id])];
    FirstIsLeast(devices);
    if p == first {
      SweepSkips(rest, stores', update, p.id);
    } else {
      SweepByDevice(rest, stores', update, p);
    }
  }

  lemma FirstIsLeast(devices: seq<PairedPeer>)
    requires Ascending(devices) && devices != []
    ensures Ascending(devices[1..]) && forall p | p in devices[1..] :: devices[0].id < p.id
  {
  }

  /** A round: the master sends every device it trusts its roster. */
  function Round(m: Introducer, stores: Stores): (stores': Stores)
    requires AllIn(m.trusted, stores)
    ensures stores'.Keys == stores.Keys
  {
    Sweep(m.trusted, stores, (d, peers) => Reply(m, peers, d).0)
  }

  lemma RoundByDevice(m: Introducer, stores: Stores, p: PairedPeer)
    requires m.PairedWith(stores) && p in m.trusted
    ensures Round(m, stores)[p.id] == Reply(m, stores[p.id], p).0
  {
    SweepByDevice(m.trusted, stores, (d, peers) => Reply(m, peers, d).0, p);
  }

  /** A reply without a failing disk is a success that leaves the device knowing every other. */
  lemma ReplyIntroducesAll(m: Introducer, stores: Stores, p: PairedPeer, q: PairedPeer)
    requires m.PairedWith(stores) && p in m.trusted && q in m.trusted
    ensures var (peers', r) := Reply(m, stores[p.id], p);
      && r.Provisioned? && r.added + r.alreadyKnown == |m.RosterTo(p)|
      && OnlyAdds(Call(m.hash, p.id, m.self), stores[p.id], peers', m.RosterTo(p))
      && (q.id != p.id ==> q.id in peers')
  {
    var c, roster := Call(m.hash, p.id, m.self), m.RosterTo(p);
    HandlingOnlyAdds(c, stores[p.id], roster, AllSave(|roster|));
    NoneRefused(c, Progress(stores[p.id], 0, 0, false), roster, AllSave(|roster|));
    RosterIsEveryoneElse(p.id, m.trusted, q);
    if q.id != p.id {
      assert KnownOrSelf(c, Reply(m, stores[p.id], p).0, Of(q));
    }
  }

  /**
   After a round without a failure, every device knows every other device of the master, for any
   number of them; no record that was there has changed, and no device has a record of itself that
   it did not have before.
   */
  lemma RoundCompletesMesh(m: Introducer, stores: Stores, p: PairedPeer, q: PairedPeer)
    requires m.PairedWith(stores) && p in m.trusted && q in m.trusted
    ensures var stores' := Round(m, stores);
      && m.PairedWith(stores')
      && (p.id != q.id ==> q.id in stores'[p.id])
      && (forall id | id in stores[p.id] :: id in stores'[p.id] && stores'[p.id][id] == stores[p.id][id])
      && (p.id in stores'[p.id] ==> p.id in stores[p.id])
  {
    var stores' := Round(m, stores);
    forall d | d in m.trusted
      ensures stores'[d.id] == Reply(m, stores[d.id], d).0 && m.self in stores'[d.id]
    {
      RoundByDevice(m, stores, d);
      ReplyIntroducesAll(m, stores, d, d);
    }
    ReplyIntroducesAll(m, stores, p, q);
  }

  /** What a device did not know before, it now has as the master has it, vouched for by the master. */
  lemma RoundCarriesRecords(m: Introducer, stores: Stores, p: PairedPeer, q: PairedPeer)
    requires m.PairedWith(stores) && p in m.trusted && q in m.trusted && p.id != q.id && q.id !in stores[p.id]
    ensures var stores' := Round(m, stores);
      && q.id in stores'[p.id]
      && var record := stores'[p.id][q.id];
         && record.id == q.id && record.key == q.key && record.name == q.name && record.platform == q.platform
         && record.introducedBy == Some(m.self)
  {
    RoundByDevice(m, stores, p);
    ReplyIntroducesAll(m, stores, p, q);
    var c, record := Call(m.hash, p.id, m.self), Round(m, stores)[p.id][q.id];
    assert FromRoster(c, record, m.RosterTo(p));
    var i :| i in m.RosterTo(p) && i.rawKey.Point? && record == Peer(c, i);
    RosterIsEveryoneElse(p.id, m.trusted, p);
    var d :| d in m.trusted && d.id != p.id && i == Of(d);
    AscendingIds(m.trusted, d, q);
  }

  lemma AscendingIds(devices: seq<PairedPeer>, d: PairedPeer, q: PairedPeer)
    requires Ascending(devices) && d in devices && q in devices && d.id == q.id
    ensures d == q
  {
  }

  /** A second round adds nothing anywhere: every reply counts the whole roster as already known. */
  lemma SecondRoundAddsNothing(m: Introducer, stores: Stores, p: PairedPeer)
    requires m.PairedWith(stores) && p in m.trusted
    ensures var stores' := Round(m, stores);
      p.id in stores' && Reply(m, stores'[p.id], p) == (stores'[p.id], Provisioned(0, |m.RosterTo(p)|))
  {
    var stores' := Round(m, stores);
    var c, roster := Call(m.hash, p.id, m.self), m.RosterTo(p);
    RoundCompletesMesh(m, stores, p, p);
    forall i | i in roster
      ensures KnownOrSelf(c, stores'[p.id], i)
    {
      RosterIsEveryoneElse(p.id, m.trusted, p);
      var q :| q in m.trusted && q.id != p.id && i == Of(q);
      RoundCompletesMesh(m, stores, p, q);
    }
    AgainAddsNothing(c, Progress(stores'[p.id], 0, 0, false), roster, AllSave(|roster|));
  }

  lemma OnlyAddsConsistent(c: Call, peers: Peers, peers': Peers, roster: seq<Introduction>)
    requires Consistent(c.hash, peers) && OnlyAdds(c, peers, peers', roster)
    ensures Consistent(c.hash, peers')
  {
    forall id | id in peers'
      ensures peers'[id].id == id == c.hash(peers'[id].key)
    {
      if id !in peers {
        assert FromRoster(c, peers'[id], roster);
      }
    }
  }

  /**
   If ids tell keys apart and the stores were made by pairing and introductions only, knowing a
   device means trusting its key: after the round any two devices of the master accept each other.
   */
  lemma RoundBringsTrust(m: Introducer, stores: Stores, p: PairedPeer, q: PairedPeer)
    requires m.PairedWith(stores) && p in m.trusted && q in m.trusted && p.id != q.id
    requires Consistent(m.hash, stores[p.id])
    requires forall k :: m.hash(k) == q.id ==> k == q.key
    ensures IsTrusted(m.hash, Round(m, stores)[p.id], q.key)
  {
    RoundCompletesMesh(m, stores, p, q);
    RoundByDevice(m, stores, p);
    ReplyIntroducesAll(m, stores, p, q);
    OnlyAddsConsistent(Call(m.hash, p.id, m.self), stores[p.id], Round(m, stores)[p.id], m.RosterTo(p));
    KnownIsTrusted(m.hash, Round(m, stores)[p.id], q.key);
  }
}
