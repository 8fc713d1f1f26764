/**
 The master's registry of live workers, `workers` in crates/latticed/src/startup/master.rs: joins
 arrive on a channel, and for each one a task waits for that connection to close and cleans up.
 */
module Master {
  import opened Trust
  import Provision

  /** A connection; `serial` tells two connections of one worker apart, as their addresses in memory do. */
  datatype Connection = Connection(peer: Id, serial: nat)

  /** A `Provision` request on its way. */
  datatype Sent = Sent(to: Connection, roster: seq<Provision.Introduction>)

  datatype Event = Join(conn: Connection) | Close(conn: Connection) | Cleanup(conn: Connection)

  type Live = map<Id, Connection>

  // ---------- The registry ----------

  function Joined(live: Live, conn: Connection): Live {
    live[conn.peer := conn]
  }

  function CleanedUp(live: Live, conn: Connection): Live {
    if conn.peer in live && live[conn.peer] == conn then live - {conn.peer} else live
  }

  class Registry {
    var live: Live
    var sent: set<Sent>

    constructor ()
      ensures live == map[] && sent == {}
    {
      live, sent := map[], {};
    }

    /** A worker joins: it is registered, and every live worker, itself included, is sent its roster anew. */
    method Join(conn: Connection, trusted: seq<PairedPeer>)
      modifies this
      ensures live == Joined(old(live), conn)
      ensures sent == old(sent) + Requests(live, live.Keys, trusted)
    {
      live := live[conn.peer := conn];
      var waiting := live.Keys;
      ghost var before := sent;
      while waiting != {}
        invariant waiting <= live.Keys && live == Joined(old(live), conn)
        invariant sent == before + Requests(live, live.Keys - waiting, trusted)
        decreases waiting
      {
        var id :| id in waiting;
        sent := sent + {Sent(live[id], Provision.RosterFor(live[id].peer, trusted))};
        assert live.Keys - (waiting - {id}) == (live.Keys - waiting) + {id};
        waiting := waiting - {id};
      }
      assert live.Keys - {} == live.Keys;
    }

    /** What the task of a closed connection does: an entry is removed only if it is this very connection. */
    method Cleanup(conn: Connection)
      modifies this`live
      ensures live == CleanedUp(old(live), conn)
    {
      if conn.peer in live && live[conn.peer] == conn {
        live := live - {conn.peer};
      }
    }
  }

  ghost function Requests(live: Live, ids: set<Id>, trusted: seq<PairedPeer>): set<Sent>
    requires ids <= live.Keys
  {
    set id | id in ids :: Sent(live[id], Provision.RosterFor(live[id].peer, trusted))
  }

  /** Every live worker is sent a request, with everyone trusted but itself in it and nobody else. */
  lemma RequestsAreEveryoneElse(live: Live, trusted: seq<PairedPeer>)
    ensures forall id | id in live :: exists s :: s in Requests(live, live.Keys, trusted) && s.to == live[id]
    ensures forall s | s in Requests(live, live.Keys, trusted) ::
      && (exists id :: id in live && live[id] == s.to)
      && (forall p | p in trusted && p.id != s.to.peer :: Provision.Of(p) in s.roster)
      && forall i | i in s.roster :: exists q :: q in trusted && q.id != s.to.peer && i == Provision.Of(q)
  {
    forall id | id in live
      ensures exists s :: s in Requests(live, live.Keys, trusted) && s.to == live[id]
    {
      assert Sent(live[id], Provision.RosterFor(live[id].peer, trusted)) in Requests(live, live.Keys, trusted);
    }
    forall target: Id, p: PairedPeer
      ensures p in trusted && p.id != target ==> Provision.Of(p) in Provision.RosterFor(target, trusted)
      ensures forall i | i in Provision.RosterFor(target, trusted) ::
        exists q :: q in trusted && q.id != target && i == Provision.Of(q)
    {
      Provision.RosterIsEveryoneElse(target, trusted, p);
    }
  }

  // ---------- Histories ----------

  function After(events: seq<Event>): Live {
    if events == [] then map[]
    else
      var live := After(events[..|events| - 1]);
      match events[|events| - 1]
      case Join(conn) => Joined(live, conn)
      case Close(_) => live
      case Cleanup(conn) => CleanedUp(live, conn)
  }

  /**
   `conn` joined at event `k`; since then its worker has not joined again, nor has this connection been
   cleaned up.
   */
  ghost predicate LatestJoin(events: seq<Event>, k: nat, conn: Connection) {
    && k < |events| && events[k] == Join(conn)
    && forall j | k < j < |events| ::
         !(events[j].Join? && events[j].conn.peer == conn.peer) && events[j] != Cleanup(conn)
  }

  lemma LatestJoinGrows(events: seq<Event>, k: nat, conn: Connection, e: Event)
    requires k < |events|
    ensures LatestJoin(events + [e], k, conn) <==>
      LatestJoin(events, k, conn) && !(e.Join? && e.conn.peer == conn.peer) && e != Cleanup(conn)
  {
    var all := events + [e];
    assert forall j | 0 <= j < |events| :: all[j] == events[j];
    assert all[|events|] == e;
  }

  /**
   Over any order of joins, reconnects, closes and clean-ups, the entry for a worker is its most
   recently joined connection until that connection's own clean-up, and nothing else.
   */
  lemma {:induction false} EntryIsLatestJoin(events: seq<Event>, id: Id, conn: Connection)
    ensures id in After(events) && After(events)[id] == conn <==>
      conn.peer == id && exists k :: LatestJoin(events, k, conn)
  {
    if events != [] {
      var n := |events| - 1;
      var before, e := events[..n], events[n];
      assert events == before + [e];
      EntryIsLatestJoin(before, id, conn);
      forall k: nat | k < n
        ensures LatestJoin(events, k, conn) <==>
          LatestJoin(before, k, conn) && !(e.Join? && e.conn.peer == conn.peer) && e != Cleanup(conn)
      {
        LatestJoinGrows(before, k, conn, e);
      }
      assert LatestJoin(events, n, conn) <==> e == Join(conn);
      EntryStep(before, e, id, conn);
    }
  }

  lemma EntryStep(before: seq<Event>, e: Event, id: Id, conn: Connection)
    requires id in After(before) && After(before)[id] == conn ==> conn.peer == id
    ensures var live, live' := After(before), After(before + [e]);
      id in live' && live'[id] == conn <==>
        || (e == Join(conn) && conn.peer == id)
        || (id in live && live[id] == conn && !(e.Join? && e.conn.peer == id) && e != Cleanup(conn))
  {
    assert (before + [e])[..|before|] == before;
  }

  /** Cleaning up after an older connection never removes a newer one, nor any other worker's. */
  lemma OlderCleanupIsHarmless(events: seq<Event>, older: Connection, id: Id)
    requires id in After(events) && After(events)[id] != older
    ensures id in After(events + [Cleanup(older)]) && After(events + [Cleanup(older)])[id] == After(events)[id]
  {
    assert (events + [Cleanup(older)])[..|events|] == events;
  }

  // ---------- When the clean-ups have caught up ----------

  /** The tasks still waiting, one for each join. */
  function Waiting(events: seq<Event>): multiset<Connection> {
    if events == [] then multiset{}
    else
      var waiting := Waiting(events[..|events| - 1]);
      match events[|events| - 1]
      case Join(conn) => waiting + multiset{conn}
      case Close(_) => waiting
      case Cleanup(conn) => waiting - multiset{conn}
  }

  predicate Closed(events: seq<Event>, conn: Connection) {
    Close(conn) in events
  }

  /** A clean-up is one of the tasks' and comes after the connection has closed. */
  ghost predicate Possible(events: seq<Event>) {
    forall k | 0 <= k < |events| && events[k].Cleanup? ::
      events[k].conn in Waiting(events[..k]) && Closed(events[..k], events[k].conn)
  }

  lemma {:induction false} EntriesHaveTasks(events: seq<Event>, conn: Connection, k: nat)
    requires LatestJoin(events, k, conn)
    ensures conn in Waiting(events)
  {
    var n := |events| - 1;
    if k < n {
      assert events == events[..n] + [events[n]];
      LatestJoinGrows(events[..n], k, conn, events[n]);
      EntriesHaveTasks(events[..n], conn, k);
    }
  }

  /** `conn` is the last connection its worker has joined with. */
  ghost predicate LastJoined(events: seq<Event>, k: nat, conn: Connection) {
    && k < |events| && events[k] == Join(conn)
    && forall j | k < j < |events| :: !(events[j].Join? && events[j].conn.peer == conn.peer)
  }

  /**
   Once no closed connection is waiting for its clean-up, the registry is exactly the workers whose
   last connection is still open, each under that connection.
   */
  lemma SettledRegistryIsOpenWorkers(events: seq<Event>, id: Id, conn: Connection)
    requires Possible(events) && forall c | c in Waiting(events) :: !Closed(events, c)
    ensures id in After(events) && After(events)[id] == conn <==>
      conn.peer == id && !Closed(events, conn) && exists k :: LastJoined(events, k, conn)
  {
    EntryIsLatestJoin(events, id, conn);
    if k :| LatestJoin(events, k, conn) {
      EntriesHaveTasks(events, conn, k);
      assert LastJoined(events, k, conn);
    }
    if !Closed(events, conn) {
      forall j | 0 <= j < |events|
        ensures events[j] != Cleanup(conn)
      {
        assert Closed(events[..j], conn) ==> Closed(events, conn);
      }
      if k :| LastJoined(events, k, conn) {
        assert LatestJoin(events, k, conn);
      }
    }
  }
}
