/**
 The pairing session, crates/latticed/src/pairing_session.rs: verify, save, say so, and succeed only
 once the other side has said so too.

 `Exchange` is one side, effect by effect.  Below it, two sides run over one connection as a
 transition system in which either may fail at any point, its disk included.
 */
module PairingSession {
  import opened Wrappers
  import opened Trust
  import opened Pairing

  // ---------- One side ----------

  datatype Sent = Hello(message: Message) | Proof(confirm: Confirm) | SavedMark

  /** What the side has sent; it can send `capacity` frames before the connection breaks. */
  class Outbox {
    const capacity: nat
    var sent: seq<Sent>

    constructor (capacity: nat)
      ensures this.capacity == capacity && sent == []
    {
      this.capacity, this.sent := capacity, [];
    }

    method Send(frame: Sent) returns (ok: bool)
      modifies this
      ensures ok == (|old(sent)| < capacity)
      ensures sent == if ok then old(sent) + [frame] else old(sent)
    {
      ok := |sent| < capacity;
      if ok {
        sent := sent + [frame];
      }
    }
  }

  /**
   What arrives, if it does: the peer's message, its confirmation, its last frame, the end of its stream,
   delivery of ours.
   */
  datatype Arrivals = Arrivals(
    message: Option<Message>, confirm: Option<Confirm>, write: Write,
    last: Option<string>, ended: bool, delivered: bool)

  const SAVED := "saved"

  /** Both verdicts of the first half: the exchange of proofs, and whether the proven key is the connection's. */
  function Verify(hash: Hash, p: Party, connPeer: Id, message: Message, confirm: Confirm): Option<PairedPeer> {
    var exchanged := KeyExchange(p, message);
    if exchanged.Failure? then None
    else
      var peer := Finish(hash, exchanged.value.0, confirm);
      if peer.Failure? || peer.value.id != connPeer then None else Some(peer.value)
  }

  /** The peer this side goes on to save, if it gets that far. */
  function ToSave(hash: Hash, p: Party, connPeer: Id, capacity: nat, a: Arrivals): Option<PairedPeer> {
    if capacity < 2 || a.message.None? || a.confirm.None? then None
    else Verify(hash, p, connPeer, a.message.value, a.confirm.value)
  }

  /** What becomes of one side: its store, whether it has said that it saved, and whom it has paired with. */
  ghost predicate Outcome(hash: Hash, p: Party, connPeer: Id, capacity: nat, a: Arrivals, peers: Peers, file: File,
                          peers': Peers, file': File, marked: bool, r: Option<Id>)
  {
    var peer := ToSave(hash, p, connPeer, capacity, a);
    && peers' == (if peer.Some? then peers[peer.value.id := peer.value] else peers)
    && file' == (if peer.Some? then Saved(peers', file, a.write) else file)
    && (marked <==> peer.Some? && a.write.Written? && capacity >= 3)
    && (r.Some? <==> marked && a.last == Some(SAVED) && a.ended && a.delivered)
    && (r.Some? ==> r == Some(peer.value.id) == Some(connPeer))
  }

  /**
   `exchange`.  The store changes only for a verified peer, and success means that it was saved, that
   we said so and that the other side did; `SAVED` never goes out before the record is on disk.
   */
  method Exchange(hash: Hash, p: Party, connPeer: Id, store: TrustStore, out: Outbox, a: Arrivals)
    returns (r: Option<Id>)
    requires store.Valid() && out.sent == []
    modifies store, out
    ensures store.Valid()
    ensures Outcome(hash, p, connPeer, out.capacity, a, old(store.peers), old(store.file), store.peers, store.file,
                    SavedMark in out.sent, r)
    ensures r.Some? ==> Load(store.file) == Success(store.peers)
  {
    r := None;
    var ok := out.Send(Hello(Ours(p)));
    if !ok || a.message.None? {
      return;
    }
    var exchanged := KeyExchange(p, a.message.value);
    if exchanged.Failure? {
      return;
    }
    ok := out.Send(Proof(exchanged.value.1));
    if !ok || a.confirm.None? {
      return;
    }
    var peer := Finish(hash, exchanged.value.0, a.confirm.value);
    if peer.Failure? || peer.value.id != connPeer {
      return;
    }
    var saved := store.Insert(peer.value, a.write);
    if saved.Failure? {
      return;
    }
    ok := out.Send(SavedMark);
    if !ok || a.last != Some(SAVED) || !a.ended || !a.delivered {
      return;
    }
    r := Some(peer.value.id);
  }

  // ---------- Two sides ----------

  datatype Side = Left | Right {
    function Other(): Side {
      if Left? then Right else Left
    }
  }

  /**
   Both devices, the key each sees at the other end of its connection, and what their stores and files held
   before.
   */
  datatype World = World(hash: Hash, left: Party, right: Party, leftSees: Id, rightSees: Id) {
    function Party(s: Side): Party {
      if s.Left? then left else right
    }

    function Sees(s: Side): Id {
      if s.Left? then leftSees else rightSees
    }

    /** Fresh secrets do not collide. */
    predicate Valid() {
      left.nonce != right.nonce
    }

    /** The two ends are not of one TLS session: somebody sits between them, and carries what he likes. */
    predicate Relayed() {
      left.binding != right.binding
    }
  }

  datatype Pc =
    | Opening
    | AwaitMessage
    | AwaitConfirm(awaiting: Awaiting)
    | Verified(peer: PairedPeer)
    | Stored(id: Id)
    | AwaitSaved(id: Id)
    | AwaitEnd(id: Id)
    | AwaitDelivered(id: Id)
    | Done(id: Id)
    | Failed

  /** One side: where it is, its store and file, what it has sent on the two streams, and the message it was given. */
  datatype End = End(pc: Pc, peers: Peers, file: File, hello: Option<Message>, heard: Option<Message>,
                     proof: Option<Confirm>, savedMark: bool)

  datatype State = State(left: End, right: End) {
    function At(s: Side): End {
      if s.Left? then left else right
    }

    function With(s: Side, e: End): State {
      if s.Left? then this.(left := e) else this.(right := e)
    }
  }

  datatype Event =
    | Open(side: Side)
    | TakeMessage(side: Side, message: Message)
    | TakeConfirm(side: Side, confirm: Confirm)
    | Store(side: Side, write: Write)
    | SaySaved(side: Side)
    | TakeSaved(side: Side)
    | TakeEnd(side: Side)
    | Delivered(side: Side)
    | Fail(side: Side)

  /** Nothing has been sent; the stores are whatever they are. */
  predicate Init(s: State) {
    && s.left == End(Opening, s.left.peers, s.left.file, None, None, None, false)
    && s.right == End(Opening, s.right.peers, s.right.file, None, None, None, false)
    && Load(s.left.file) == Success(s.left.peers)
    && Load(s.right.file) == Success(s.right.peers)
  }

  /**
   What can arrive as the other side's confirmation: that confirmation, or, through a relay, anything
   whose MAC is one of those the two sides sent or was made without knowing either code.
   */
  predicate Deliverable(w: World, mine: End, theirs: End, confirm: Confirm) {
    || theirs.proof == Some(confirm)
    || (w.Relayed() && (confirm.mac.Tag? ==>
          || (confirm.mac.secret.code != w.left.code && confirm.mac.secret.code != w.right.code)
          || (mine.proof.Some? && confirm.mac == mine.proof.value.mac)
          || (theirs.proof.Some? && confirm.mac == theirs.proof.value.mac)))
  }

  /** A step of one side, from what it and the other side have come to. */
  function Move(w: World, mine: End, theirs: End, e: Event): Option<End> {
    match e
    case Open(side) =>
      if !mine.pc.Opening? then None
      else Some(mine.(pc := AwaitMessage, hello := Some(Ours(w.Party(side)))))
    case TakeMessage(side, message) =>
      if !mine.pc.AwaitMessage? || !(w.Relayed() || theirs.hello == Some(message)) then None
      else
        var exchanged := KeyExchange(w.Party(side), message);
        Some(if exchanged.Failure? then mine.(pc := Failed, heard := Some(message))
             else mine.(pc := AwaitConfirm(exchanged.value.0), heard := Some(message),
               proof := Some(exchanged.value.1)))
    case TakeConfirm(side, confirm) =>
      if !mine.pc.AwaitConfirm? || !Deliverable(w, mine, theirs, confirm) then None
      else
        var peer := Finish(w.hash, mine.pc.awaiting, confirm);
        Some(mine.(pc := if peer.Failure? || peer.value.id != w.Sees(side) then Failed else Verified(peer.value)))
    case Store(_, write) =>
      if !mine.pc.Verified? then None
      else
        var peers := mine.peers[mine.pc.peer.id := mine.pc.peer];
        Some(mine.(peers := peers, file := Saved(peers, mine.file, write),
                   pc := if write.Written? then Stored(mine.pc.peer.id) else Failed))
    case SaySaved(_) => if !mine.pc.Stored? then None else Some(mine.(pc := AwaitSaved(mine.pc.id), savedMark := true))
    case TakeSaved(_) => if !mine.pc.AwaitSaved? || !(w.Relayed() || theirs.savedMark) then None
      else Some(mine.(pc := AwaitEnd(mine.pc.id)))
    case TakeEnd(_) => if !mine.pc.AwaitEnd? then None else Some(mine.(pc := AwaitDelivered(mine.pc.id)))
    case Delivered(_) => if !mine.pc.AwaitDelivered? then None else Some(mine.(pc := Done(mine.pc.id)))
    case Fail(_) => if mine.pc.Done? then None else Some(mine.(pc := Failed))
  }

  function Step(w: World, s: State, e: Event): Option<State> {
    var moved := Move(w, s.At(e.side), s.At(e.side.Other()), e);
    if moved.None? then None else Some(s.With(e.side, moved.value))
  }

  // ---------- One side's effects are its moves ----------

  /** Moves of one side, while the other stays where it is. */
  function Moved(w: World, start: End, theirs: End, moves: seq<Event>): Option<End> {
    if moves == [] then Some(start)
    else
      var before := Moved(w, start, theirs, moves[..|moves| - 1]);
      if before.None? then None else Move(w, before.value, theirs, moves[|moves| - 1])
  }

  lemma MovedOneMore(w: World, start: End, theirs: End, moves: seq<Event>, e: Event)
    requires Moved(w, start, theirs, moves).Some?
    ensures Moved(w, start, theirs, moves + [e]) == Move(w, Moved(w, start, theirs, moves).value, theirs, e)
  {
    assert (moves + [e])[..|moves|] == moves;
  }

  function Opened(w: World, side: Side, start: End): End {
    start.(pc := AwaitMessage, hello := Some(Ours(w.Party(side))))
  }

  /** What arrives at one side is what the other has sent, or what a relay can make of it. */
  predicate Arrived(w: World, start: End, theirs: End, side: Side, a: Arrivals) {
    && (a.message.Some? ==>
          && (w.Relayed() || theirs.hello == a.message)
          && (a.confirm.Some? ==>
                var heard := Move(w, Opened(w, side, start), theirs, TakeMessage(side, a.message.value));
                heard.Some? && heard.value.pc.AwaitConfirm? ==> Deliverable(w, heard.value, theirs, a.confirm.value)))
    && (a.last == Some(SAVED) ==> w.Relayed() || theirs.savedMark)
  }

  /** One side gets from one point to another by moves of its own. */
  ghost predicate Gets(w: World, side: Side, start: End, theirs: End, moves: seq<Event>, end: End) {
    (forall n | 0 <= n < |moves| :: moves[n].side == side) && Moved(w, start, theirs, moves) == Some(end)
  }

  lemma OneMove(w: World, side: Side, start: End, theirs: End, moves: seq<Event>, end: End, e: Event, end': End)
    returns (moves': seq<Event>)
    requires Gets(w, side, start, theirs, moves, end) && e.side == side && Move(w, end, theirs, e) == Some(end')
    ensures moves' == moves + [e] && Gets(w, side, start, theirs, moves', end')
  {
    MovedOneMore(w, start, theirs, moves, e);
    moves' := moves + [e];
  }

  /** Up to the verdict: it opens, exchanges and verifies. */
  lemma VerdictInMoves(w: World, start: End, theirs: End, side: Side, capacity: nat, a: Arrivals)
    returns (moves: seq<Event>, end: End)
    requires start.pc.Opening? && Arrived(w, start, theirs, side, a)
    ensures Gets(w, side, start, theirs, moves, end)
    ensures end.peers == start.peers && end.file == start.file && end.savedMark == start.savedMark
    ensures var peer := ToSave(w.hash, w.Party(side), w.Sees(side), capacity, a);
      if peer.Some? then end.pc == Verified(peer.value) else !HasStored(end.pc) && !end.pc.Verified?
  {
    end := Opened(w, side, start);
    moves := OpeningInMoves(w, start, theirs, side);
    if capacity >= 2 && a.message.Some? {
      moves, end := ProofsInMoves(w, start, theirs, side, a, moves);
    }
  }

  lemma OpeningInMoves(w: World, start: End, theirs: End, side: Side) returns (moves: seq<Event>)
    requires start.pc.Opening?
    ensures Gets(w, side, start, theirs, moves, Opened(w, side, start))
  {
    moves := OneMove(w, side, start, theirs, [], start, Open(side), Opened(w, side, start));
  }

  lemma ProofsInMoves(w: World, start: End, theirs: End, side: Side, a: Arrivals, before: seq<Event>)
    returns (moves: seq<Event>, end: End)
    requires a.message.Some? && Arrived(w, start, theirs, side, a)
    requires Gets(w, side, start, theirs, before, Opened(w, side, start))
    ensures Gets(w, side, start, theirs, moves, end)
    ensures end.peers == start.peers && end.file == start.file && end.savedMark == start.savedMark
    ensures var peer := if a.confirm.None? then None
        else Verify(w.hash, w.Party(side), w.Sees(side), a.message.value, a.confirm.value);
      if peer.Some? then end.pc == Verified(peer.value) else !HasStored(end.pc) && !end.pc.Verified?
  {
    var begun, take := Opened(w, side, start), TakeMessage(side, a.message.value);
    end := Move(w, begun, theirs, take).value;
    moves := OneMove(w, side, start, theirs, before, begun, take, end);
    if end.pc.AwaitConfirm? && a.confirm.Some? {
      var heard, judge := end, TakeConfirm(side, a.confirm.value);
      end := Move(w, heard, theirs, judge).value;
      moves := OneMove(w, side, start, theirs, moves, heard, judge, end);
    }
  }

  /** Behind it: it saves and says so. */
  lemma SavingInMoves(w: World, start: End, theirs: End, side: Side, capacity: nat, a: Arrivals, before: seq<Event>,
                      verified: End)
    returns (moves: seq<Event>, end: End)
    requires Gets(w, side, start, theirs, before, verified)
    requires verified.pc.Verified? && !verified.savedMark && (a.last == Some(SAVED) ==> w.Relayed() || theirs.savedMark)
    ensures Gets(w, side, start, theirs, moves, end)
    ensures var peer := verified.pc.peer;
      && end.peers == verified.peers[peer.id := peer] && end.file == Saved(end.peers, verified.file, a.write)
      && end.savedMark == (a.write.Written? && capacity >= 3)
      && (end.pc.Done? <==> end.savedMark && a.last == Some(SAVED) && a.ended && a.delivered)
      && (end.pc.Done? ==> end.pc.id == peer.id)
  {
    end := Move(w, verified, theirs, Store(side, a.write)).value;
    moves := OneMove(w, side, start, theirs, before, verified, Store(side, a.write), end);
    if a.write.Written? && capacity >= 3 {
      var said := end.(pc := AwaitSaved(end.pc.id), savedMark := true);
      moves := OneMove(w, side, start, theirs, moves, end, SaySaved(side), said);
      end := said;
      if a.last == Some(SAVED) && a.ended && a.delivered {
        moves, end := HearingInMoves(w, start, theirs, side, moves, said);
      }
    }
  }

  /** And waits to hear so, to the end of the stream and to its own delivery. */
  lemma HearingInMoves(w: World, start: End, theirs: End, side: Side, before: seq<Event>, said: End)
    returns (moves: seq<Event>, end: End)
    requires Gets(w, side, start, theirs, before, said) && said.pc.AwaitSaved? && (w.Relayed() || theirs.savedMark)
    ensures Gets(w, side, start, theirs, moves, end) && end == said.(pc := Done(said.pc.id))
  {
    var heard, ended := said.(pc := AwaitEnd(said.pc.id)), said.(pc := AwaitDelivered(said.pc.id));
    end := said.(pc := Done(said.pc.id));
    moves := OneMove(w, side, start, theirs, before, said, TakeSaved(side), heard);
    moves := OneMove(w, side, start, theirs, moves, heard, TakeEnd(side), ended);
    moves := OneMove(w, side, start, theirs, moves, ended, Delivered(side), end);
  }

  /**
   Whatever arrives and wherever it breaks off: what `Exchange` makes of it, one side of the system
   does in moves, the last of which fails unless it succeeds.
   */
  lemma ExchangeIsMoves(w: World, start: End, theirs: End, side: Side, capacity: nat, a: Arrivals)
    returns (moves: seq<Event>, end: End)
    requires start.pc.Opening? && !start.savedMark && Arrived(w, start, theirs, side, a)
    ensures Gets(w, side, start, theirs, moves, end) && (end.pc.Done? || end.pc.Failed?)
    ensures Outcome(w.hash, w.Party(side), w.Sees(side), capacity, a, start.peers, start.file, end.peers, end.file,
                    end.savedMark, if end.pc.Done? then Some(end.pc.id) else None)
  {
    moves, end := VerdictInMoves(w, start, theirs, side, capacity, a);
    if end.pc.Verified? {
      moves, end := SavingInMoves(w, start, theirs, side, capacity, a, moves, end);
    }
    if !end.pc.Done? {
      moves := OneMove(w, side, start, theirs, moves, end, Fail(side), end.(pc := Failed));
      end := end.(pc := Failed);
    }
  }

  ghost predicate IsRun(w: World, run: seq<State>, events: seq<Event>) {
    && |run| == |events| + 1
    && Init(run[0])
    && forall n, m | 0 <= n < |events| && m == n + 1 :: Step(w, run[n], events[n]) == Some(run[m])
  }

  // ---------- What every run keeps ----------

  /** A pairing of these two can succeed on this side. */
  predicate Agree(w: World, s: Side) {
    var p, q := w.Party(s), w.Party(s.Other());
    p.code == q.code && p.binding == q.binding && p.key != q.key && w.Sees(s) == w.hash(q.key)
  }

  /** The store holds the other's key, in memory. */
  predicate Knows(w: World, s: Side, e: End) {
    var q := w.Party(s.Other());
    w.hash(q.key) in e.peers && e.peers[w.hash(q.key)] == Learned(w.hash, q)
  }

  predicate HasStored(pc: Pc) {
    pc.Stored? || pc.AwaitSaved? || pc.AwaitEnd? || pc.AwaitDelivered? || pc.Done?
  }

  /** What this side makes of the message it was given. */
  function Exchanged(w: World, s: Side, e: End): Result<(Awaiting, Confirm), Error>
    requires e.heard.Some?
  {
    KeyExchange(w.Party(s), e.heard.value)
  }

  /** What it has sent; without a relay the message it was given is the other side's. */
  predicate SentOk(w: World, s: Side, e: End) {
    && (e.hello.Some? ==> e.hello.value == Ours(w.Party(s)))
    && (e.heard.Some? && !w.Relayed() ==> e.heard.value == Ours(w.Party(s.Other())))
    && (e.proof.Some? ==> e.heard.Some? && Exchanged(w, s, e).Success? && e.proof.value == Exchanged(w, s, e).value.1)
  }

  predicate PcOk(w: World, s: Side, e: End) {
    match e.pc
    case Opening => e.heard.None? && e.proof.None?
    case AwaitMessage => e.heard.None? && e.proof.None?
    case AwaitConfirm(awaiting) =>
      e.heard.Some? && e.proof.Some? && Exchanged(w, s, e).Success? && awaiting == Exchanged(w, s, e).value.0
    case Verified(peer) => Agree(w, s) && peer == Learned(w.hash, w.Party(s.Other()))
    case _ => HasStored(e.pc) ==> e.pc.id == w.hash(w.Party(s.Other()).key)
  }

  /** The store is the one it was, or that with the other side's record, and then only if the two agree. */
  ghost predicate StoreOk(w: World, s: Side, e: End, before: End) {
    var other := Learned(w.hash, w.Party(s.Other()));
    && Filed(e.peers)
    && ((e.peers == before.peers && e.file == before.file)
        || (Agree(w, s) && e.peers == before.peers[other.id := other]))
    && (HasStored(e.pc) || e.savedMark ==> Agree(w, s) && Knows(w, s, e) && Load(e.file) == Success(e.peers))
    && (e.savedMark ==> e.pc.Failed? || HasStored(e.pc))
    && (!e.pc.Failed? && !HasStored(e.pc) ==> e.peers == before.peers && e.file == before.file)
  }

  ghost predicate EndOk(w: World, s: Side, e: End, before: End) {
    SentOk(w, s, e) && PcOk(w, s, e) && StoreOk(w, s, e, before)
  }

  predicate HeardSaved(pc: Pc) {
    pc.AwaitEnd? || pc.AwaitDelivered? || pc.Done?
  }

  ghost predicate Ok(w: World, s: State, start: State) {
    && EndOk(w, Left, s.left, start.left)
    && EndOk(w, Right, s.right, start.right)
    && (HeardSaved(s.left.pc) ==> s.right.savedMark)
    && (HeardSaved(s.right.pc) ==> s.left.savedMark)
  }

  lemma TakeConfirmKeeps(w: World, e: Event, mine: End, theirs: End, before: End)
    requires w.Valid() && EndOk(w, e.side, mine, before) && SentOk(w, e.side.Other(), theirs)
    requires e.TakeConfirm? && Move(w, mine, theirs, e).Some?
    ensures EndOk(w, e.side, Move(w, mine, theirs, e).value, before)
  {
    if theirs.proof == Some(e.confirm) {
      AcceptsIff(w.hash, w.Party(e.side), w.Party(e.side.Other()), mine.heard.value, theirs.heard.value);
    } else {
      RelayedConfirmFails(w, e, mine, theirs);
    }
  }

  /** Whatever a relay has done before and sends now, no confirmation through it is accepted. */
  lemma RelayedConfirmFails(w: World, e: Event, mine: End, theirs: End)
    requires w.Relayed() && SentOk(w, e.side, mine) && PcOk(w, e.side, mine) && SentOk(w, e.side.Other(), theirs)
    requires e.TakeConfirm? && mine.pc.AwaitConfirm? && Deliverable(w, mine, theirs, e.confirm)
    ensures Finish(w.hash, mine.pc.awaiting, e.confirm).Failure?
  {
    var awaiting := mine.pc.awaiting;
    assert awaiting.secret.code == w.Party(e.side).code && awaiting.transcript.binding == w.Party(e.side).binding;
    if e.confirm.mac == Tag(awaiting.secret, awaiting.transcript, e.confirm.body) {
      assert theirs.proof.Some? ==> theirs.proof.value.mac.transcript.binding == w.Party(e.side.Other()).binding;
      assert e.confirm.mac == mine.proof.value.mac;
      assert e.confirm.body == OwnBody(w.Party(e.side));
    }
  }

  lemma StoreKeeps(w: World, e: Event, mine: End, theirs: End, before: End)
    requires EndOk(w, e.side, mine, before)
    requires e.Store? && Move(w, mine, theirs, e).Some?
    ensures EndOk(w, e.side, Move(w, mine, theirs, e).value, before)
  {
    SavedLoads(mine.peers[mine.pc.peer.id := mine.pc.peer], mine.file);
  }

  lemma TakeMessageKeeps(w: World, e: Event, mine: End, theirs: End, before: End)
    requires EndOk(w, e.side, mine, before) && SentOk(w, e.side.Other(), theirs)
    requires e.TakeMessage? && Move(w, mine, theirs, e).Some?
    ensures EndOk(w, e.side, Move(w, mine, theirs, e).value, before)
  {
  }

  lemma MoveKeeps(w: World, e: Event, mine: End, theirs: End, before: End)
    requires w.Valid() && EndOk(w, e.side, mine, before) && SentOk(w, e.side.Other(), theirs)
    requires Move(w, mine, theirs, e).Some?
    ensures EndOk(w, e.side, Move(w, mine, theirs, e).value, before)
  {
    if e.TakeMessage? {
      TakeMessageKeeps(w, e, mine, theirs, before);
    } else if e.TakeConfirm? {
      TakeConfirmKeeps(w, e, mine, theirs, before);
    } else if e.Store? {
      StoreKeeps(w, e, mine, theirs, before);
    }
  }

  lemma MoveHears(w: World, e: Event, mine: End, theirs: End)
    requires HasStored(mine.pc) ==> !w.Relayed()
    requires (HeardSaved(mine.pc) ==> theirs.savedMark) && Move(w, mine, theirs, e).Some?
    ensures HeardSaved(Move(w, mine, theirs, e).value.pc) ==> theirs.savedMark
    ensures mine.savedMark ==> Move(w, mine, theirs, e).value.savedMark
  {
  }

  lemma ReplacedKeeps(w: World, s: State, side: Side, e: End, start: State)
    requires Ok(w, s, start) && EndOk(w, side, e, start.At(side))
    requires HeardSaved(e.pc) ==> s.At(side.Other()).savedMark
    requires s.At(side).savedMark ==> e.savedMark
    ensures Ok(w, s.With(side, e), start)
  {
  }

  lemma StepKeeps(w: World, s: State, e: Event, start: State)
    requires w.Valid() && Ok(w, s, start) && Step(w, s, e).Some?
    ensures Ok(w, Step(w, s, e).value, start)
  {
    var mine, theirs := s.At(e.side), s.At(e.side.Other());
    assert EndOk(w, e.side, mine, start.At(e.side)) && SentOk(w, e.side.Other(), theirs);
    MoveKeeps(w, e, mine, theirs, start.At(e.side));
    MoveHears(w, e, mine, theirs);
    ReplacedKeeps(w, s, e.side, Move(w, mine, theirs, e).value, start);
  }

  lemma {:induction false} RunKeeps(w: World, run: seq<State>, events: seq<Event>, n: nat)
    requires w.Valid() && IsRun(w, run, events) && n < |run|
    ensures Ok(w, run[n], run[0])
  {
    if n > 0 {
      RunKeeps(w, run, events, n - 1);
      assert Step(w, run[n - 1], events[n - 1]) == Some(run[n]);
      StepKeeps(w, run[n - 1], events[n - 1], run[0]);
    }
  }

  // ---------- Agreement ----------

  /** The store trusts the other side's key, in memory and on disk. */
  ghost predicate Holds(w: World, s: Side, e: End) {
    && IsTrusted(w.hash, e.peers, w.Party(s.Other()).key)
    && Load(e.file) == Success(e.peers)
  }

  /**
   Over every interleaving, with a failure of either side or its disk at any point: if one side
   reports success, both stores hold the other's key, in memory and on disk.
   */
  lemma SuccessMeansBothHold(w: World, run: seq<State>, events: seq<Event>, n: nat, side: Side)
    requires w.Valid() && IsRun(w, run, events) && n < |run|
    requires run[n].At(side).pc.Done?
    ensures Holds(w, side, run[n].At(side)) && Holds(w, side.Other(), run[n].At(side.Other()))
    ensures run[n].At(side).pc.id == w.hash(w.Party(side.Other()).key) == w.Sees(side)
  {
    RunKeeps(w, run, events, n);
    var mine, theirs := run[n].At(side), run[n].At(side.Other());
    assert EndOk(w, side, mine, run[0].At(side)) && EndOk(w, side.Other(), theirs, run[0].At(side.Other()));
    assert theirs.savedMark;
  }

  /**
   On no run does a store change except to gain exactly the other side's record, and not even that
   unless the codes are the same, the sessions are the same, and the key is the one the connection
   was made with.  A mistyped code or a relay changes nothing, in memory or on disk, whatever the
   relay puts in the place of what it is given.
   */
  lemma DisagreementChangesNothing(w: World, run: seq<State>, events: seq<Event>, n: nat, side: Side)
    requires w.Valid() && IsRun(w, run, events) && n < |run|
    ensures var now, before := run[n].At(side), run[0].At(side);
      var other := Learned(w.hash, w.Party(side.Other()));
      && (now.peers == before.peers || now.peers == before.peers[other.id := other])
      && (!Agree(w, side) ==> now.peers == before.peers && now.file == before.file)
    ensures Agree(w, side) ==> w.left.code == w.right.code && w.left.binding == w.right.binding
  {
    RunKeeps(w, run, events, n);
  }

  // ---------- And agreement can be reached ----------

  lemma Extended(w: World, run: seq<State>, events: seq<Event>, e: Event, next: State)
    returns (run': seq<State>, events': seq<Event>)
    requires IsRun(w, run, events) && Step(w, run[|run| - 1], e) == Some(next)
    ensures IsRun(w, run', events') && run'[|run'| - 1] == next && run'[0] == run[0]
  {
    run', events' := run + [next], events + [e];
  }

  /** Both sides take the same step, the left one first. */
  lemma Both(w: World, run: seq<State>, events: seq<Event>, l: Event, r: Event, left: End, right: End)
    returns (run': seq<State>, events': seq<Event>)
    requires IsRun(w, run, events) && l.side.Left? && r.side.Right?
    requires var s := run[|run| - 1];
      Move(w, s.left, s.right, l) == Some(left) && Move(w, s.right, left, r) == Some(right)
    ensures IsRun(w, run', events') && run'[|run'| - 1] == State(left, right) && run'[0] == run[0]
  {
    var s := run[|run| - 1];
    run', events' := Extended(w, run, events, l, State(left, s.right));
    run', events' := Extended(w, run', events', r, State(left, right));
  }

  lemma ToVerified(w: World, start: State) returns (run: seq<State>, events: seq<Event>, l: End, r: End)
    requires w.Valid() && Init(start) && Agree(w, Left) && Agree(w, Right)
    ensures IsRun(w, run, events) && run[0] == start && run[|run| - 1] == State(l, r)
    ensures l == End(Verified(Learned(w.hash, w.right)), start.left.peers, start.left.file, l.hello, l.heard, l.proof,
        false)
    ensures r == End(Verified(Learned(w.hash, w.left)), start.right.peers, start.right.file, r.hello, r.heard,
        r.proof, false)
  {
    var p, q := w.left, w.right;
    var pq, qp := KeyExchange(p, Ours(q)).value, KeyExchange(q, Ours(p)).value;
    AcceptsIff(w.hash, p, q, Ours(q), Ours(p));
    AcceptsIff(w.hash, q, p, Ours(p), Ours(q));
    run, events := [start], [];
    l, r := start.left.(pc := AwaitMessage, hello := Some(Ours(p))),
      start.right.(pc := AwaitMessage, hello := Some(Ours(q)));
    run, events := Both(w, run, events, Open(Left), Open(Right), l, r);
    l := l.(pc := AwaitConfirm(pq.0), heard := Some(Ours(q)), proof := Some(pq.1));
    r := r.(pc := AwaitConfirm(qp.0), heard := Some(Ours(p)), proof := Some(qp.1));
    run, events := Both(w, run, events, TakeMessage(Left, Ours(q)), TakeMessage(Right, Ours(p)), l, r);
    l, r := l.(pc := Verified(Learned(w.hash, q))), r.(pc := Verified(Learned(w.hash, p)));
    run, events := Both(w, run, events, TakeConfirm(Left, qp.1), TakeConfirm(Right, pq.1), l, r);
  }

  /** Two devices that agree can both succeed, from any stores; so success is possible exactly if they agree. */
  lemma AgreementIsReached(w: World, start: State) returns (run: seq<State>, events: seq<Event>)
    requires w.Valid() && Init(start) && Agree(w, Left) && Agree(w, Right)
    ensures IsRun(w, run, events) && run[0] == start
    ensures run[|run| - 1].left.pc == Done(w.hash(w.right.key)) && run[|run| - 1].right.pc == Done(w.hash(w.left.key))
  {
    var l, r;
    run, events, l, r := ToVerified(w, start);
    var a, b := w.hash(w.right.key), w.hash(w.left.key);
    var ps, qs := l.peers[a := Learned(w.hash, w.right)], r.peers[b := Learned(w.hash, w.left)];
    l, r := l.(peers := ps, file := Saved(ps, l.file, Written), pc := Stored(a)),
            r.(peers := qs, file := Saved(qs, r.file, Written), pc := Stored(b));
    run, events := Both(w, run, events, Store(Left, Written), Store(Right, Written), l, r);
    l, r := l.(pc := AwaitSaved(a), savedMark := true), r.(pc := AwaitSaved(b), savedMark := true);
    run, events := Both(w, run, events, SaySaved(Left), SaySaved(Right), l, r);
    l, r := l.(pc := AwaitEnd(a)), r.(pc := AwaitEnd(b));
    run, events := Both(w, run, events, TakeSaved(Left), TakeSaved(Right), l, r);
    l, r := l.(pc := AwaitDelivered(a)), r.(pc := AwaitDelivered(b));
    run, events := Both(w, run, events, TakeEnd(Left), TakeEnd(Right), l, r);
    l, r := l.(pc := Done(a)), r.(pc := Done(b));
    run, events := Both(w, run, events, Delivered(Left), Delivered(Right), l, r);
  }
}
