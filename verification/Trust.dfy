/**
 The devices this one has paired with, crates/lattice-net/src/trust.rs.  The hash that turns a
 public key into a device id (crates/lattice-net/src/identity.rs) is an arbitrary function; that it
 tells keys apart is a hypothesis of the lemmas that need it and of no other.
 */
module Trust {
  import opened Wrappers

  type Id = nat
  type Key = nat
  type Hash = Key -> Id

  datatype PairedPeer = PairedPeer(id: Id, key: Key, name: string, platform: string, introducedBy: Option<Id>)

  /** Paired directly, over a code; when that was is not part of this model. */
  function NewPeer(hash: Hash, key: Key, name: string, platform: string): PairedPeer {
    PairedPeer(hash(key), key, name, platform, None)
  }

  function Introduced(hash: Hash, key: Key, name: string, platform: string, voucher: Id): PairedPeer {
    NewPeer(hash, key, name, platform).(introducedBy := Some(voucher))
  }

  type Peers = map<Id, PairedPeer>

  /** Records are filed under their own id. */
  ghost predicate Filed(peers: Peers) {
    forall id | id in peers :: peers[id].id == id
  }

  /** Every record's id is the hash of its key, as the two constructors make it. */
  ghost predicate Consistent(hash: Hash, peers: Peers) {
    forall id | id in peers :: peers[id].id == id == hash(peers[id].key)
  }

  predicate IsTrusted(hash: Hash, peers: Peers, key: Key) {
    hash(key) in peers && peers[hash(key)].key == key
  }

  // ---------- The file ----------

  /**
   `std::fs::write` truncates before it writes, so a write that fails late leaves neither the old list nor
   the new.
   */
  datatype File = Absent | Listed(peers: seq<PairedPeer>) | Torn

  datatype Write = Written | NotStarted | Interrupted

  datatype StoreError = Unreadable | Unwritable

  predicate IsLeast(k: Id, ids: set<Id>) {
    k in ids && forall x | x in ids :: k <= x
  }

  lemma {:induction false} LeastExists(ids: set<Id>)
    requires ids != {}
    ensures exists k :: IsLeast(k, ids)
  {
    var some :| some in ids;
    if !IsLeast(some, ids) {
      var less :| less in ids && less < some;
      var others := ids - {some};
      assert less in others && forall x | x in ids :: x == some || x in others;
      LeastExists(others);
      var least :| IsLeast(least, others);
      assert IsLeast(least, ids);
    }
  }

  function Least(ids: set<Id>): (k: Id)
    requires ids != {}
    ensures IsLeast(k, ids)
  {
    LeastExists(ids);
    assert forall j, k :: IsLeast(j, ids) && IsLeast(k, ids) ==> j == k;
    var k :| IsLeast(k, ids);
    k
  }

  /** The records in the order of their ids. */
  function Listing(peers: Peers): (s: seq<PairedPeer>)
    ensures |s| == |peers|
    decreases |peers|
  {
    if peers == map[] then []
    else
      var k := Least(peers.Keys);
      assert (peers - {k}).Keys == peers.Keys - {k};
      [peers[k]] + Listing(peers - {k})
  }

  lemma FirstListed(peers: Peers) returns (k: Id, rest: Peers)
    requires peers != map[]
    ensures k in peers && rest == peers - {k} && |rest| < |peers|
    ensures Listing(peers) == [peers[k]] + Listing(rest)
    ensures forall id | id in rest :: k < id && peers[id] == rest[id]
    ensures forall id | id in peers :: id == k || id in rest
  {
    k := Least(peers.Keys);
    rest := peers - {k};
    assert rest.Keys == peers.Keys - {k};
  }

  lemma {:induction false} ListingHasAll(peers: Peers)
    ensures forall id | id in peers :: peers[id] in Listing(peers)
    ensures forall p | p in Listing(peers) :: exists id :: id in peers && peers[id] == p
    decreases |peers|
  {
    if peers != map[] {
      var k, rest := FirstListed(peers);
      ListingHasAll(rest);
      forall id | id in peers
        ensures peers[id] in Listing(peers)
      {
        if id != k {
          assert rest[id] in Listing(rest);
        }
      }
      forall p | p in Listing(peers)
        ensures exists id :: id in peers && peers[id] == p
      {
        if p != peers[k] {
          assert p in Listing(rest);
          var id :| id in rest && rest[id] == p;
          assert id in peers && peers[id] == p;
        }
      }
    }
  }

  ghost predicate Ascending(s: seq<PairedPeer>) {
    forall i, j | 0 <= i < j < |s| :: s[i].id < s[j].id
  }

  lemma Prepended(first: PairedPeer, tail: seq<PairedPeer>)
    requires Ascending(tail) && forall p | p in tail :: first.id < p.id
    ensures Ascending([first] + tail)
  {
    var all := [first] + tail;
    forall i, j | 0 <= i < j < |all|
      ensures all[i].id < all[j].id
    {
      assert all[j] == tail[j - 1] && tail[j - 1] in tail;
    }
  }

  lemma {:induction false} ListingIsSorted(peers: Peers)
    requires Filed(peers)
    ensures Ascending(Listing(peers))
    decreases |peers|
  {
    if peers != map[] {
      var k, rest := FirstListed(peers);
      ListingIsSorted(rest);
      ListingHasAll(rest);
      Prepended(peers[k], Listing(rest));
    }
  }

  /** Reading a list; of two records with one id the later wins. */
  function Collect(s: seq<PairedPeer>): (peers: Peers)
    ensures Filed(peers)
  {
    if s == [] then map[] else map[s[0].id := s[0]] + Collect(s[1..])
  }

  lemma {:induction false} CollectAscending(s: seq<PairedPeer>)
    requires Ascending(s)
    ensures forall p | p in s :: p.id in Collect(s) && Collect(s)[p.id] == p
    ensures forall id | id in Collect(s) :: Collect(s)[id] in s
  {
    if s != [] {
      CollectAscending(s[1..]);
      forall p | p in s
        ensures p.id in Collect(s) && Collect(s)[p.id] == p
      {
        if p in s[1..] {
        } else {
          assert forall q | q in s[1..] :: q.id != p.id;
        }
      }
    }
  }

  lemma CollectAll(s: seq<PairedPeer>, peers: Peers)
    requires Filed(peers) && Ascending(s)
    requires forall id | id in peers :: peers[id] in s
    requires forall p | p in s :: p.id in peers && peers[p.id] == p
    ensures Collect(s) == peers
  {
    CollectAscending(s);
    var collected := Collect(s);
    assert forall id | id in collected :: collected[id].id == id && collected[id] in s;
    assert forall id | id in peers :: peers[id].id == id && peers[id] in s;
  }

  lemma CollectListing(peers: Peers)
    requires Filed(peers)
    ensures Collect(Listing(peers)) == peers
  {
    ListingHasAll(peers);
    ListingIsSorted(peers);
    CollectAll(Listing(peers), peers);
  }

  function Load(file: File): Result<Peers, StoreError> {
    match file
    case Absent => Success(map[])
    case Listed(s) => Success(Collect(s))
    case Torn => Failure(Unreadable)
  }

  function Saved(peers: Peers, file: File, write: Write): File {
    match write
    case Written => Listed(Listing(peers))
    case NotStarted => file
    case Interrupted => Torn
  }

  /** A list that was written in full reads back as the store it was written from. */
  lemma SavedLoads(peers: Peers, file: File)
    requires Filed(peers)
    ensures Load(Saved(peers, file, Written)) == Success(peers)
  {
    CollectListing(peers);
  }

  // ---------- The store ----------

  class TrustStore {
    var peers: Peers
    var file: File

    constructor (peers: Peers, file: File)
      requires Filed(peers)
      ensures Valid() && this.peers == peers && this.file == file
    {
      this.peers, this.file := peers, file;
    }

    ghost predicate Valid()
      reads this
    {
      Filed(peers)
    }

    method Save(write: Write) returns (r: Result<(), StoreError>)
      modifies this`file
      ensures file == Saved(peers, old(file), write)
      ensures r == if write.Written? then Success(()) else Failure(Unwritable)
    {
      match write {
        case Written => file := Listed(Listing(peers));
        case NotStarted =>
        case Interrupted => file := Torn;
      }
      r := if write.Written? then Success(()) else Failure(Unwritable);
    }

    /** The record is in memory whatever becomes of the file. */
    method Insert(peer: PairedPeer, write: Write) returns (r: Result<(), StoreError>)
      requires Valid()
      modifies this
      ensures Valid()
      ensures peers == old(peers)[peer.id := peer] && file == Saved(peers, old(file), write)
      ensures r.Success? <==> write.Written?
      ensures r.Success? ==> Load(file) == Success(peers)
    {
      peers := peers[peer.id := peer];
      r := Save(write);
      SavedLoads(peers, file);
    }

    method Remove(id: Id, write: Write) returns (r: Result<bool, StoreError>)
      requires Valid()
      modifies this
      ensures Valid()
      ensures peers == old(peers) - {id}
      ensures file == if id in old(peers) then Saved(peers, old(file), write) else old(file)
      ensures r == if id in old(peers) && !write.Written? then Failure(Unwritable) else Success(id in old(peers))
      ensures r == Success(true) ==> Load(file) == Success(peers)
    {
      var removed := id in peers;
      peers := peers - {id};
      if removed {
        var saved := Save(write);
        SavedLoads(peers, file);
        if saved.Failure? {
          return Failure(saved.error);
        }
      }
      r := Success(removed);
    }
  }

  /** `load`: an absent file is an empty store, a damaged one is an error. */
  method LoadStore(file: File) returns (r: Result<TrustStore, StoreError>)
    ensures r.Success? <==> !file.Torn?
    ensures r.Success? ==>
      fresh(r.value) && r.value.Valid() && r.value.file == file && Load(file) == Success(r.value.peers)
  {
    var peers := Load(file);
    if peers.Failure? {
      return Failure(peers.error);
    }
    var store := new TrustStore(peers.value, file);
    r := Success(store);
  }

  // ---------- What insertion and removal mean for trust ----------

  /** Exactly the key that was inserted becomes trusted, and exactly a key with the removed id stops being so. */
  lemma InsertTrusts(hash: Hash, peers: Peers, name: string, platform: string, key: Key, other: Key)
    requires Consistent(hash, peers)
    ensures var peers' := peers[hash(key) := NewPeer(hash, key, name, platform)];
      && Consistent(hash, peers')
      && IsTrusted(hash, peers', key)
      && (hash(other) != hash(key) ==> (IsTrusted(hash, peers', other) <==> IsTrusted(hash, peers, other)))
      && (hash(other) == hash(key) && other != key ==> !IsTrusted(hash, peers', other))
    ensures !IsTrusted(hash, peers - {hash(key)}, key)
    ensures hash(other) != hash(key) ==>
        (IsTrusted(hash, peers - {hash(key)}, other) <==> IsTrusted(hash, peers, other))
  {
  }

  /**
   The comment on `insert` says that a device that was reinstalled, and so has a new key, replaces
   its old record.  It does so only if the two keys hash to one id, which is the one case in which the
   old key is no longer trusted.  Otherwise both stay trusted.
   */
  lemma ReinstalledDeviceReplacesIffSameId(hash: Hash, peers: Peers, oldKey: Key, newKey: Key, name: string,
                                           platform: string)
    requires Consistent(hash, peers) && IsTrusted(hash, peers, oldKey) && oldKey != newKey
    ensures var peers' := peers[hash(newKey) := NewPeer(hash, newKey, name, platform)];
      && IsTrusted(hash, peers', newKey)
      && (IsTrusted(hash, peers', oldKey) <==> hash(oldKey) != hash(newKey))
  {
  }

  /** If ids tell keys apart, having a record for a device's id is the same as trusting its key. */
  lemma KnownIsTrusted(hash: Hash, peers: Peers, key: Key)
    requires Consistent(hash, peers)
    requires forall k :: hash(k) == hash(key) ==> k == key
    ensures hash(key) in peers <==> IsTrusted(hash, peers, key)
  {
    if hash(key) in peers {
      assert hash(peers[hash(key)].key) == hash(key);
    }
  }
}
