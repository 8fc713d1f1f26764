/**
 The worker's reconnect loop, crates/latticed/src/startup/worker.rs.  Discovery, whoever answers at
 an address, the pairing exchange, the master's reply to registration and the disk are a script of
 arbitrary answers, one round per turn of the loop.
 */
module Worker {
  import opened Wrappers
  import opened Service

  datatype Target = Target(id: Option<Id>, addrs: seq<Addr>, pairingPort: nat)

  /** `--master`, parsed. */
  datatype Selector = Anyone | AtAddress(addr: Addr) | WithId(id: Id)

  datatype Options = Options(master: Selector, pairingPort: nat)

  datatype Peer = Peer(id: Id, isMaster: bool, speaksProtocol: bool, addrs: seq<Addr>, pairingPort: Option<nat>)

  datatype Registration = Registered | RefusedBusy | Disconnected | TimedOut | NotAccepted

  datatype Round = Round(
    browsed: Option<seq<Peer>>,
    known: set<Id>,
    answers: seq<Option<Id>>,
    codeTyped: bool,
    pairingAnswers: seq<Option<Id>>,
    exchanged: bool,
    redialAnswers: seq<Option<Id>>,
    registration: Registration,
    written: bool)

  datatype Error = BrowseFailed | SelfSelected | Ambiguous | PairingFailed | RegistrationFailed | NotWritten

  /** What a worker has saved, in memory, and whether the code it was started with is still unused. */
  datatype State = State(saved: Option<Target>, hasCode: bool)

  /** What is worth knowing about a run, in order; `Waits` is a point where a shutdown signal can end it. */
  datatype Entry =
    | Connected(id: Id)
    | Paired(id: Id)
    | RegisteredWith(id: Id)
    | Lost(id: Id)
    | Authorised(master: Option<Id>)
    | Waits

  /** How a turn ends: another one, an error that ends the run, or a shutdown signal during a wait. */
  datatype Outcome = Again(st: State) | Exits(error: Error) | Stopped

  // ---------- Choosing whom to look for ----------

  predicate Eligible(peer: Peer, wanted: Option<Id>) {
    && peer.isMaster && peer.speaksProtocol
    && (wanted.None? || wanted == Some(peer.id))
    && exists i :: 0 <= i < |peer.addrs| && peer.addrs[i].ipv4
  }

  function Candidates(peers: seq<Peer>, wanted: Option<Id>): seq<Peer> {
    if peers == [] then []
    else (if Eligible(peers[0], wanted) then [peers[0]] else []) + Candidates(peers[1..], wanted)
  }

  function SelectMaster(peers: seq<Peer>, wanted: Option<Id>): Result<Option<Peer>, Error> {
    var candidates := Candidates(peers, wanted);
    if |candidates| > 1 then Failure(Ambiguous)
    else Success(if candidates == [] then None else Some(candidates[0]))
  }

  ghost predicate SomeEligible(peers: seq<Peer>, wanted: Option<Id>) {
    exists i :: 0 <= i < |peers| && Eligible(peers[i], wanted)
  }

  ghost predicate TwoEligible(peers: seq<Peer>, wanted: Option<Id>) {
    exists i, j :: 0 <= i < j < |peers| && Eligible(peers[i], wanted) && Eligible(peers[j], wanted)
  }

  lemma EligibleBehind(peers: seq<Peer>, wanted: Option<Id>)
    requires peers != []
    ensures SomeEligible(peers, wanted) <==> Eligible(peers[0], wanted) || SomeEligible(peers[1..], wanted)
    ensures TwoEligible(peers, wanted) <==>
      (Eligible(peers[0], wanted) && SomeEligible(peers[1..], wanted)) || TwoEligible(peers[1..], wanted)
  {
    var rest := peers[1..];
    assert forall i | 0 <= i < |rest| :: rest[i] == peers[i + 1];
    if i :| 0 <= i < |rest| && Eligible(rest[i], wanted) {
      assert Eligible(peers[i + 1], wanted);
    }
    if i, j :| 0 <= i < j < |rest| && Eligible(rest[i], wanted) && Eligible(rest[j], wanted) {
      assert Eligible(peers[i + 1], wanted) && Eligible(peers[j + 1], wanted);
    }
    if i, j :| 0 <= i < j < |peers| && Eligible(peers[i], wanted) && Eligible(peers[j], wanted) {
      assert Eligible(rest[j - 1], wanted);
      if i > 0 {
        assert Eligible(rest[i - 1], wanted);
      }
    }
  }

  lemma {:induction false} CandidatesAre(peers: seq<Peer>, wanted: Option<Id>)
    ensures forall p | p in Candidates(peers, wanted) :: p in peers && Eligible(p, wanted)
    ensures Candidates(peers, wanted) != [] <==> SomeEligible(peers, wanted)
    ensures |Candidates(peers, wanted)| > 1 <==> TwoEligible(peers, wanted)
  {
    if peers != [] {
      EligibleBehind(peers, wanted);
      CandidatesAre(peers[1..], wanted);
    }
  }

  /** Two eligible peers are refused as ambiguous, none is no choice, and otherwise it is the one. */
  lemma SelectMasterDecides(peers: seq<Peer>, wanted: Option<Id>)
    ensures var r := SelectMaster(peers, wanted);
      && (r == Failure(Ambiguous) <==> TwoEligible(peers, wanted))
      && (r == Success(None) <==> !SomeEligible(peers, wanted))
      && (r.Failure? ==> r == Failure(Ambiguous))
      && (r.Success? && r.value.Some? ==> r.value.value in peers && Eligible(r.value.value, wanted))
  {
    CandidatesAre(peers, wanted);
    if |Candidates(peers, wanted)| == 1 {
      assert Candidates(peers, wanted)[0] in Candidates(peers, wanted);
    }
  }

  function Keep(addrs: seq<Addr>, loopback: bool): (r: seq<Addr>)
    ensures forall a :: a in r <==> a in addrs && a.ipv4 && a.loopback == loopback
  {
    if addrs == [] then []
    else (if addrs[0].ipv4 && addrs[0].loopback == loopback then [addrs[0]] else []) + Keep(addrs[1..], loopback)
  }

  /** The IPv4 addresses, loopback ones last. */
  function Usable(addrs: seq<Addr>): (r: seq<Addr>)
    ensures forall a :: a in r <==> a in addrs && a.ipv4
  {
    Keep(addrs, false) + Keep(addrs, true)
  }

  function Requested(options: Options, saved: Option<Target>): Option<Id> {
    match options.master
    case WithId(id) => Some(id)
    case _ => if saved.Some? then saved.value.id else None
  }

  function FindTarget(options: Options, self: Id, saved: Option<Target>, browsed: Option<seq<Peer>>):
    Result<Option<Target>, Error>
  {
    if options.master.AtAddress? then
      var id := if saved.Some? && options.master.addr in saved.value.addrs then saved.value.id else None;
      Success(Some(Target(id, [options.master.addr], options.pairingPort)))
    else
      var requested := Requested(options, saved);
      if requested == Some(self) then Failure(SelfSelected)
      else if browsed.None? then Failure(BrowseFailed)
      else
        var found := SelectMaster(browsed.value, requested);
        if found.Failure? then Failure(found.error)
        else if found.value.Some? then
          var peer := found.value.value;
          Success(Some(Target(Some(peer.id), Usable(peer.addrs),
                              if peer.pairingPort.Some? then peer.pairingPort.value else options.pairingPort)))
        else Success(if saved.Some? && saved.value.id == requested then saved else None)
  }

  // ---------- One turn of the loop ----------

  /** `pair`: the identity it ends up with, if it succeeds. */
  function PairWith(target: Target, hasCode: bool, round: Round): (r: Option<Id>)
    ensures r.Some? && target.id.Some? ==> r == target.id
  {
    if !hasCode && !round.codeTyped then None
    else
      var id := FirstWanted(target.addrs, None, round.pairingAnswers, 0);
      if id.None? || (target.id.Some? && target.id != id) || !round.exchanged then None else id
  }

  /** From a connection to its end. */
  function Served(st: State, target: Target, peer: Id, round: Round): (seq<Entry>, Outcome) {
    var pinned := target.(id := Some(peer));
    var asked := [Connected(peer), Waits];
    match round.registration
    case NotAccepted => (asked, Exits(RegistrationFailed))
    case Registered =>
      var joined := asked + [RegisteredWith(peer), Authorised(Some(peer))];
      if !round.written then (joined, Exits(NotWritten))
      else (joined + [Waits, Lost(peer), Authorised(None), Waits], Again(st.(saved := Some(pinned))))
    case _ => (asked + [Waits], Again(st.(saved := Some(pinned))))
  }

  /** From a pairing to its end. */
  function PairedWith(target: Target, round: Round): (seq<Entry>, Outcome)
    requires target.id.Some?
  {
    var st := State(Some(target), false);
    var redialed := FirstWanted(target.addrs, target.id, round.redialAnswers, 0);
    if redialed.None? then ([Paired(target.id.value), Waits, Waits], Again(st))
    else
      var (entries, outcome) := Served(st, target, redialed.value, round);
      ([Paired(target.id.value), Waits] + entries, outcome)
  }

  /** The rest of a turn, once there is a target. */
  function TurnAt(st: State, target: Target, round: Round): (seq<Entry>, Outcome) {
    var dialed := if st.hasCode then [] else [Waits];
    var trusted := target.id.Some? && target.id.value in round.known;
    var peer := if st.hasCode then None else FirstWanted(target.addrs, target.id, round.answers, 0);
    if peer.Some? then
      var (entries, outcome) := Served(st, target, peer.value, round);
      (dialed + entries, outcome)
    else if trusted && !st.hasCode then (dialed + [Waits], Again(st))
    else
      var id := PairWith(target, st.hasCode, round);
      if id.None? then (dialed + [Waits], Exits(PairingFailed))
      else
        var (entries, outcome) := PairedWith(target.(id := id), round);
        (dialed + [Waits] + entries, outcome)
  }

  function Turn(options: Options, self: Id, st: State, round: Round): (seq<Entry>, Outcome) {
    var found := FindTarget(options, self, st.saved, round.browsed);
    if found.Failure? then ([Waits], Exits(found.error))
    else if found.value.None? then ([Waits, Waits], Again(st))
    else
      var (entries, outcome) := TurnAt(st, found.value.value, round);
      ([Waits] + entries, outcome)
  }

  /** A whole run: what it logs, and where it stands when the script ends. */
  function History(options: Options, self: Id, st: State, rounds: seq<Round>): (seq<Entry>, Outcome)
    decreases |rounds|
  {
    if rounds == [] then ([], Again(st))
    else
      var (entries, outcome) := Turn(options, self, st, rounds[0]);
      if !outcome.Again? then (entries, outcome)
      else
        var (more, last) := History(options, self, outcome.st, rounds[1..]);
        (entries + more, last)
  }

  // ---------- A shutdown signal ----------

  /** What a run has logged, and how many more of its waits will end before the shutdown signal comes. */
  datatype Recorder = Recorder(log: seq<Entry>, patience: nat, stopped: bool)

  function Record(r: Recorder, e: Entry): Recorder {
    if r.stopped then r
    else if e.Waits? && r.patience == 0 then Recorder(r.log + [e], 0, true)
    else Recorder(r.log + [e], if e.Waits? then r.patience - 1 else r.patience, false)
  }

  function RecordAll(r: Recorder, entries: seq<Entry>): Recorder
    decreases |entries|
  {
    if entries == [] then r else RecordAll(Record(r, entries[0]), entries[1..])
  }

  lemma {:induction false} RecordedAfter(r: Recorder, a: seq<Entry>, b: seq<Entry>)
    ensures RecordAll(r, a + b) == RecordAll(RecordAll(r, a), b)
    decreases |a|
  {
    if a == [] {
      assert a + b == b;
    } else {
      assert (a + b)[1..] == a[1..] + b;
      RecordedAfter(Record(r, a[0]), a[1..], b);
    }
  }

  lemma RecordedOneMore(r: Recorder, done: seq<Entry>, e: Entry)
    ensures RecordAll(r, done + [e]) == Record(RecordAll(r, done), e)
  {
    RecordedAfter(r, done, [e]);
    assert [e][1..] == [];
  }

  lemma {:induction false} StoppedStays(r: Recorder, entries: seq<Entry>)
    requires r.stopped
    ensures RecordAll(r, entries) == r
  {
    if entries != [] {
      StoppedStays(r, entries[1..]);
    }
  }

  function WaitsIn(log: seq<Entry>): nat
    decreases |log|
  {
    if log == [] then 0 else (if log[0].Waits? then 1 else 0) + WaitsIn(log[1..])
  }

  /**
   A signal cuts the log behind a wait, the one behind as many as are patiently sat out; without one all of
   it is there.
   */
  lemma {:induction false} RecordedIsPrefix(r: Recorder, entries: seq<Entry>) returns (k: nat)
    requires !r.stopped
    ensures k <= |entries| && RecordAll(r, entries).log == r.log + entries[..k]
    ensures RecordAll(r, entries).stopped <==> WaitsIn(entries) > r.patience
    ensures if RecordAll(r, entries).stopped then
        k > 0 && entries[k - 1].Waits? && WaitsIn(entries[..k - 1]) == r.patience
      else k == |entries| && RecordAll(r, entries).patience == r.patience - WaitsIn(entries)
    decreases |entries|
  {
    if entries == [] {
      return 0;
    }
    var next := Record(r, entries[0]);
    if next.stopped {
      StoppedStays(next, entries[1..]);
      k := 1;
    } else {
      k := RecordedIsPrefix(next, entries[1..]);
      k := k + 1;
      assert [entries[0]] + entries[1..][..k - 1] == entries[..k];
      assert r.log + [entries[0]] + entries[1..][..k - 1] == r.log + ([entries[0]] + entries[1..][..k - 1]);
      assert k > 1 ==> entries[..k - 1][1..] == entries[1..][..k - 2];
    }
  }

  // ---------- The loop ----------

  class WorkerRun {
    const options: Options
    const self: Id
    var saved: Option<Target>
    var suppliedCode: bool
    var recorder: Recorder
    /** Whom the runtime takes orders from. */
    var master: Option<Id>

    constructor (options: Options, self: Id, saved: Option<Target>, suppliedCode: bool, patience: nat)
      ensures this.options == options && this.self == self && View() == State(saved, suppliedCode)
      ensures Valid() && recorder == Recorder([], patience, false)
    {
      this.options, this.self, this.saved, this.suppliedCode := options, self, saved, suppliedCode;
      this.recorder, this.master := Recorder([], patience, false), None;
    }

    ghost predicate Valid()
      reads this
    {
      master == After(UNREGISTERED, recorder.log).master
    }

    function View(): State
      reads this
    {
      State(saved, suppliedCode)
    }

    /** Logs an entry; `before` and `done` are where this part of the loop began and what it has logged since. */
    method Note(e: Entry, ghost before: Recorder, ghost done: seq<Entry>)
      requires Valid() && !recorder.stopped && !e.Waits? && !e.Authorised?
      requires recorder == RecordAll(before, done)
      modifies this`recorder
      ensures Valid() && !recorder.stopped && recorder == RecordAll(before, done + [e])
    {
      AfterOneMore(UNREGISTERED, recorder.log, e);
      RecordedOneMore(before, done, e);
      recorder := Recorder(recorder.log + [e], recorder.patience, false);
    }

    method AuthorizeMaster(id: Option<Id>)
      requires Valid()
      modifies this`recorder, this`master
      ensures Valid() && master == id
      ensures recorder == old(recorder).(log := old(recorder.log) + [Authorised(id)])
    {
      AfterOneMore(UNREGISTERED, recorder.log, Authorised(id));
      master := id;
      recorder := recorder.(log := recorder.log + [Authorised(id)]);
    }

    /** An `await`: the signal may come before it is over. */
    method Await(ghost before: Recorder, ghost done: seq<Entry>) returns (over: bool)
      requires Valid() && !recorder.stopped && recorder == RecordAll(before, done)
      modifies this`recorder
      ensures Valid() && recorder == RecordAll(before, done + [Waits]) && over == !recorder.stopped
    {
      AfterOneMore(UNREGISTERED, recorder.log, Waits);
      RecordedOneMore(before, done, Waits);
      over := recorder.patience > 0;
      recorder := Recorder(recorder.log + [Waits], if over then recorder.patience - 1 else 0, !over);
    }

    /** From a registered or refused connection back to the top of the loop, or out of it. */
    method Serve(target: Target, peer: Id, round: Round) returns (outcome: Outcome)
      requires Valid() && !recorder.stopped
      modifies this
      ensures Valid()
      ensures var (entries, last) := Served(old(View()), target, peer, round);
        Ran(old(recorder), entries, last, recorder, outcome, View())
    {
      ghost var r, all := recorder, Served(View(), target, peer, round).0;
      Note(Connected(peer), r, []);
      assert [] + [Connected(peer)] == [Connected(peer)];
      var over := Await(r, [Connected(peer)]);
      ghost var asked := [Connected(peer)] + [Waits];
      assert asked == [Connected(peer), Waits];
      if !over {
        StoppedEarly(r, asked, all);
        return Stopped;
      }
      match round.registration {
        case NotAccepted => return Exits(RegistrationFailed);
        case Registered =>
          outcome := Join(target, peer, round.written, r, asked);
        case _ =>
          saved := Some(target.(id := Some(peer)));
          over := Await(r, asked);
          outcome := if over then Again(View()) else Stopped;
      }
    }

    /** From the registration to the end of the wait after the connection's loss. */
    method Join(target: Target, peer: Id, written: bool, ghost r: Recorder, ghost asked: seq<Entry>)
      returns (outcome: Outcome)
      requires Valid() && !recorder.stopped && recorder == RecordAll(r, asked)
      modifies this
      ensures Valid()
      ensures var joined := asked + [RegisteredWith(peer), Authorised(Some(peer))];
        var entries := if written then joined + [Waits, Lost(peer), Authorised(None), Waits] else joined;
        var last := if written then Again(old(View()).(saved := Some(target.(id := Some(peer)))))
            else Exits(NotWritten);
        Ran(r, entries, last, recorder, outcome, View())
    {
      ghost var joined := asked + [RegisteredWith(peer)] + [Authorised(Some(peer))];
      Note(RegisteredWith(peer), r, asked);
      RecordedOneMore(r, asked + [RegisteredWith(peer)], Authorised(Some(peer)));
      AuthorizeMaster(Some(peer));
      assert joined == asked + [RegisteredWith(peer), Authorised(Some(peer))];
      if !written {
        return Exits(NotWritten);
      }
      saved := Some(target.(id := Some(peer)));
      ghost var all := joined + [Waits, Lost(peer), Authorised(None), Waits];
      var over := Await(r, joined);
      if !over {
        StoppedEarly(r, joined + [Waits], all);
        return Stopped;
      }
      Note(Lost(peer), r, joined + [Waits]);
      RecordedOneMore(r, joined + [Waits] + [Lost(peer)], Authorised(None));
      AuthorizeMaster(None);
      over := Await(r, joined + [Waits] + [Lost(peer)] + [Authorised(None)]);
      assert joined + [Waits] + [Lost(peer)] + [Authorised(None)] + [Waits] == all;
      outcome := if over then Again(View()) else Stopped;
    }

    method PairedLoop(target: Target, round: Round) returns (outcome: Outcome)
      requires Valid() && !recorder.stopped && target.id.Some?
      requires View() == State(Some(target), false)
      modifies this
      ensures Valid()
      ensures var (entries, last) := PairedWith(target, round);
        Ran(old(recorder), entries, last, recorder, outcome, View())
    {
      ghost var r, all := recorder, PairedWith(target, round).0;
      Note(Paired(target.id.value), r, []);
      assert [] + [Paired(target.id.value)] == [Paired(target.id.value)];
      var over := Await(r, [Paired(target.id.value)]);
      ghost var begun := [Paired(target.id.value)] + [Waits];
      if !over {
        StoppedEarly(r, begun, all);
        return Stopped;
      }
      var conn, failures := Connect(target.addrs, target.id, round.redialAnswers);
      if conn.None? {
        over := Await(r, begun);
        assert begun + [Waits] == all;
        return if over then Again(View()) else Stopped;
      }
      ghost var (entries, last) := Served(View(), target, conn.value, round);
      RecordedAfter(r, begun, entries);
      assert all == begun + entries;
      outcome := Serve(target, conn.value, round);
    }

    method Reach(target: Target, round: Round) returns (outcome: Outcome)
      requires Valid() && !recorder.stopped
      modifies this
      ensures Valid()
      ensures var (entries, last) := TurnAt(old(View()), target, round);
        Ran(old(recorder), entries, last, recorder, outcome, View())
    {
      ghost var r, all := recorder, TurnAt(View(), target, round).0;
      ghost var dialed: seq<Entry> := [];
      var trusted := target.id.Some? && target.id.value in round.known;
      var conn: Option<Id>, failures := None, [];
      var over := true;
      if !suppliedCode {
        over := Await(r, []);
        dialed := [] + [Waits];
        if !over {
          StoppedEarly(r, dialed, all);
          return Stopped;
        }
        conn, failures := Connect(target.addrs, target.id, round.answers);
      }
      if conn.Some? {
        RecordedAfter(r, dialed, Served(View(), target, conn.value, round).0);
        outcome := Serve(target, conn.value, round);
        return;
      }
      if trusted && !suppliedCode {
        over := Await(r, dialed);
        return if over then Again(View()) else Stopped;
      }
      var id := PairWith(target, suppliedCode, round);
      over := Await(r, dialed);
      suppliedCode := false;
      if !over {
        StoppedEarly(r, dialed + [Waits], all);
        return Stopped;
      }
      if id.None? {
        return Exits(PairingFailed);
      }
      saved := Some(target.(id := id));
      RecordedAfter(r, dialed + [Waits], PairedWith(target.(id := id), round).0);
      outcome := PairedLoop(target.(id := id), round);
    }

    method OneTurn(round: Round) returns (outcome: Outcome)
      requires Valid() && !recorder.stopped
      modifies this
      ensures Valid()
      ensures var (entries, last) := Turn(options, self, old(View()), round);
        Ran(old(recorder), entries, last, recorder, outcome, View())
    {
      ghost var r, all := recorder, Turn(options, self, View(), round).0;
      var found := FindTarget(options, self, saved, round.browsed);
      var over := Await(r, []);
      assert [] + [Waits] == [Waits];
      if !over {
        StoppedEarly(r, [Waits], all);
        return Stopped;
      }
      if found.Failure? {
        return Exits(found.error);
      }
      if found.value.None? {
        over := Await(r, [Waits]);
        assert [Waits] + [Waits] == all;
        return if over then Again(View()) else Stopped;
      }
      RecordedAfter(r, [Waits], TurnAt(View(), found.value.value, round).0);
      outcome := Reach(found.value.value, round);
    }

    /** The loop of `run_inner`: turns until one exits, the signal comes, or the script ends. */
    method Loop(rounds: seq<Round>) returns (outcome: Outcome)
      requires Valid() && !recorder.stopped
      modifies this
      ensures Valid()
      ensures var (entries, last) := History(options, self, old(View()), rounds);
        Ran(old(recorder), entries, last, recorder, outcome, View())
    {
      ghost var r, st := recorder, View();
      ghost var done: seq<Entry> := [];
      outcome := Again(View());
      assert rounds[0..] == rounds
          && done + History(options, self, st, rounds).0 == History(options, self, st, rounds).0;
      for i := 0 to |rounds|
        invariant Valid() && !recorder.stopped && outcome == Again(View())
        invariant recorder == RecordAll(r, done)
        invariant Continues(options, self, st, rounds, View(), rounds[i..], done)
      {
        assert rounds[i..][0] == rounds[i] && rounds[i..][1..] == rounds[i + 1..];
        ghost var (entries, last) := Turn(options, self, View(), rounds[i]);
        TurnContinues(options, self, st, rounds, View(), rounds[i..], done);
        RecordedAfter(r, done, entries);
        outcome := OneTurn(rounds[i]);
        done := done + entries;
        if !outcome.Again? {
          if recorder.stopped {
            StoppedEarly(r, done, History(options, self, st, rounds).0);
          }
          return;
        }
      }
      assert rounds[|rounds|..] == [] && done + [] == done;
    }

    /** `run_inner` with its guard: however the loop is left, and wherever a signal cuts it, the master is withdrawn. */
    method RunInner(rounds: seq<Round>) returns (outcome: Outcome)
      requires Valid() && !recorder.stopped
      modifies this
      ensures Valid() && master == None
      ensures var (entries, last) := History(options, self, old(View()), rounds);
        && recorder.log == RecordAll(old(recorder), entries).log + [Authorised(None)]
        && outcome == if recorder.stopped then Stopped else last
    {
      outcome := Loop(rounds);
      AuthorizeMaster(None);
    }
  }

  /** What a part of the loop has done: recorded its entries and, if no signal came, ended as it should. */
  ghost predicate Ran(before: Recorder, entries: seq<Entry>, last: Outcome, after: Recorder, outcome: Outcome,
                      view: State) {
    && after == RecordAll(before, entries)
    && (if after.stopped then outcome == Stopped else outcome == last && (last.Again? ==> view == last.st))
  }

  /** A signal part of the way leaves the rest unrecorded. */
  lemma StoppedEarly(r: Recorder, some: seq<Entry>, all: seq<Entry>)
    requires some <= all && RecordAll(r, some).stopped
    ensures RecordAll(r, all) == RecordAll(r, some)
  {
    assert all == some + all[|some|..];
    RecordedAfter(r, some, all[|some|..]);
    StoppedStays(RecordAll(r, some), all[|some|..]);
  }

  /** A run from `st` has come to `st'` with `rest` still to go, having logged `done`. */
  ghost predicate Continues(options: Options, self: Id, st: State, rounds: seq<Round>, st': State, rest: seq<Round>,
                            done: seq<Entry>) {
    var (entries, last) := History(options, self, st', rest);
    History(options, self, st, rounds) == (done + entries, last)
  }

  lemma HistoryUnfolds(options: Options, self: Id, st: State, rounds: seq<Round>, entries: seq<Entry>, outcome: Outcome)
    requires rounds != [] && Turn(options, self, st, rounds[0]) == (entries, outcome)
    ensures History(options, self, st, rounds) ==
      if !outcome.Again? then (entries, outcome)
      else
        var (more, last) := History(options, self, outcome.st, rounds[1..]);
        (entries + more, last)
  {
  }

  lemma Advances(whole: (seq<Entry>, Outcome), done: seq<Entry>, rest: (seq<Entry>, Outcome),
                 entries: seq<Entry>, more: (seq<Entry>, Outcome))
    requires whole == (done + rest.0, rest.1) && rest == (entries + more.0, more.1)
    ensures whole == ((done + entries) + more.0, more.1)
  {
    assert done + (entries + more.0) == (done + entries) + more.0;
  }

  lemma TurnContinues(options: Options, self: Id, st: State, rounds: seq<Round>, st': State, rest: seq<Round>,
                      done: seq<Entry>)
    requires rest != [] && Continues(options, self, st, rounds, st', rest, done)
    ensures var (entries, outcome) := Turn(options, self, st', rest[0]);
      && done + entries <= History(options, self, st, rounds).0
      && (if outcome.Again? then Continues(options, self, st, rounds, outcome.st, rest[1..], done + entries)
          else History(options, self, st, rounds) == (done + entries, outcome))
  {
    var (entries, outcome) := Turn(options, self, st', rest[0]);
    HistoryUnfolds(options, self, st', rest, entries, outcome);
    var none: seq<Entry> := [];
    assert entries + none == entries && done + entries + none == done + entries;
    var more := if outcome.Again? then History(options, self, outcome.st, rest[1..]) else (none, outcome);
    Advances(History(options, self, st, rounds), done, History(options, self, st', rest), entries, more);
  }

  // ---------- Identity pinning ----------

  predicate Names(e: Entry, id: Id) {
    match e
    case Connected(p) => p == id
    case Paired(p) => p == id
    case RegisteredWith(p) => p == id
    case Lost(p) => p == id
    case Authorised(master) => master.None? || master == Some(id)
    case Waits => true
  }

  ghost predicate AllName(log: seq<Entry>, id: Id) {
    forall i | 0 <= i < |log| :: Names(log[i], id)
  }

  ghost predicate OnlyWaits(log: seq<Entry>) {
    forall i | 0 <= i < |log| :: log[i].Waits?
  }

  /** The first identity a log has to do with. */
  function First(log: seq<Entry>): Option<Id> {
    if log == [] then None
    else if log[0].Connected? || log[0].Paired? then Some(log[0].id)
    else First(log[1..])
  }

  lemma {:induction false} FirstBehindWaits(waits: seq<Entry>, log: seq<Entry>)
    requires OnlyWaits(waits)
    ensures First(waits + log) == First(log)
  {
    if waits == [] {
      assert waits + log == log;
    } else {
      assert (waits + log)[1..] == waits[1..] + log;
      FirstBehindWaits(waits[1..], log);
    }
  }

  lemma {:induction false} FirstStays(log: seq<Entry>, more: seq<Entry>)
    requires First(log).Some?
    ensures First(log + more) == First(log)
  {
    if !(log[0].Connected? || log[0].Paired?) {
      FirstStays(log[1..], more);
      assert (log + more)[1..] == log[1..] + more;
    }
  }

  /** The run can only go on with this identity. */
  predicate Fixed(options: Options, st: State, id: Id) {
    && st.saved.Some? && st.saved.value.id == Some(id)
    && match options.master
       case Anyone => true
       case AtAddress(addr) => addr in st.saved.value.addrs
       case WithId(w) => w == id
  }

  lemma TargetOf(options: Options, self: Id, saved: Option<Target>, browsed: Option<seq<Peer>>)
    ensures var found := FindTarget(options, self, saved, browsed);
      found.Success? && found.value.Some? ==>
        var target := found.value.value;
        match options.master
        case AtAddress(addr) =>
          && target.addrs == [addr]
          && (saved.Some? && addr in saved.value.addrs ==> target.id == saved.value.id)
        case WithId(id) => target.id == Some(id)
        case Anyone => saved.Some? && saved.value.id.Some? ==> target.id == saved.value.id
  {
    if browsed.Some? {
      SelectMasterDecides(browsed.value, Requested(options, saved));
    }
  }

  lemma ServedNames(st: State, target: Target, peer: Id, round: Round)
    ensures var (entries, outcome) := Served(st, target, peer, round);
      && First(entries) == Some(peer) && AllName(entries, peer)
      && (outcome.Again? ==> outcome.st.saved == Some(target.(id := Some(peer))))
  {
  }

  lemma PairedNames(target: Target, round: Round)
    requires target.id.Some?
    ensures var (entries, outcome) := PairedWith(target, round);
      && First(entries) == target.id && AllName(entries, target.id.value)
      && (outcome.Again? ==> outcome.st.saved == Some(target))
  {
    var redialed := FirstWanted(target.addrs, target.id, round.redialAnswers, 0);
    if redialed.Some? {
      ServedNames(State(Some(target), false), target, redialed.value, round);
    }
  }

  /** What a part of a turn has to do with: nobody, and then nothing has changed, or one identity, which it saves. */
  ghost predicate OneIdentity(st: State, target: Target, entries: seq<Entry>, outcome: Outcome) {
    match First(entries)
    case None => OnlyWaits(entries) && (outcome.Again? ==> outcome.st == st)
    case Some(id) =>
      && (target.id.Some? ==> target.id == Some(id))
      && AllName(entries, id)
      && (outcome.Again? ==> outcome.st.saved == Some(target.(id := Some(id))))
  }

  lemma WaitsThenIdentity(st: State, target: Target, waits: seq<Entry>, entries: seq<Entry>, outcome: Outcome)
    requires OnlyWaits(waits) && OneIdentity(st, target, entries, outcome)
    ensures OneIdentity(st, target, waits + entries, outcome)
  {
    FirstBehindWaits(waits, entries);
  }

  lemma TurnAtNames(st: State, target: Target, round: Round)
    ensures var (entries, outcome) := TurnAt(st, target, round);
      OneIdentity(st, target, entries, outcome)
  {
    var dialed := if st.hasCode then [] else [Waits];
    var peer := if st.hasCode then None else FirstWanted(target.addrs, target.id, round.answers, 0);
    if peer.Some? {
      ServedNames(st, target, peer.value, round);
      var (entries, outcome) := Served(st, target, peer.value, round);
      WaitsThenIdentity(st, target, dialed, entries, outcome);
    } else {
      var id := PairWith(target, st.hasCode, round);
      FirstBehindWaits(dialed, [Waits]);
      if id.Some? {
        PairedNames(target.(id := id), round);
        var (entries, outcome) := PairedWith(target.(id := id), round);
        WaitsThenIdentity(st, target, dialed + [Waits], entries, outcome);
      }
    }
  }

  lemma TurnNames(options: Options, self: Id, st: State, round: Round)
    ensures var (entries, outcome) := Turn(options, self, st, round);
      var found := FindTarget(options, self, st.saved, round.browsed);
      if found.Success? && found.value.Some? then OneIdentity(st, found.value.value, entries, outcome)
      else First(entries).None? && OnlyWaits(entries) && (outcome.Again? ==> outcome.st == st)
  {
    var found := FindTarget(options, self, st.saved, round.browsed);
    if found.Success? && found.value.Some? {
      TurnAtNames(st, found.value.value, round);
      var (entries, outcome) := TurnAt(st, found.value.value, round);
      WaitsThenIdentity(st, found.value.value, [Waits], entries, outcome);
    }
  }

  lemma OnlyWaitsName(log: seq<Entry>, id: Id)
    requires OnlyWaits(log)
    ensures AllName(log, id)
  {
  }

  lemma TurnKeepsIdentity(options: Options, self: Id, st: State, round: Round, id: Id)
    requires Fixed(options, st, id)
    ensures var (entries, outcome) := Turn(options, self, st, round);
      AllName(entries, id) && (outcome.Again? ==> Fixed(options, outcome.st, id))
  {
    TargetOf(options, self, st.saved, round.browsed);
    TurnNames(options, self, st, round);
    var (entries, outcome) := Turn(options, self, st, round);
    if First(entries).None? {
      OnlyWaitsName(entries, id);
    }
  }

  /** Whom a run has to go by from its start: the selected identity, or the saved one where it is looked up. */
  predicate GoesBy(options: Options, saved: Option<Target>, id: Id) {
    var known := if saved.Some? then saved.value.id else None;
    match options.master
    case WithId(w) => w == id
    case Anyone => known.Some? ==> known == Some(id)
    case AtAddress(addr) => known.Some? && addr in saved.value.addrs ==> known == Some(id)
  }

  /** A turn that gets as far as a connection or a pairing settles the identity for the rest of the run. */
  lemma TurnFixesIdentity(options: Options, self: Id, st: State, round: Round)
    ensures var (entries, outcome) := Turn(options, self, st, round);
      match First(entries)
      case None => OnlyWaits(entries) && (outcome.Again? ==> outcome.st == st)
      case Some(id) =>
        && AllName(entries, id) && GoesBy(options, st.saved, id)
        && (outcome.Again? ==> Fixed(options, outcome.st, id))
  {
    TargetOf(options, self, st.saved, round.browsed);
    TurnNames(options, self, st, round);
  }

  lemma {:induction false} IdentityKept(options: Options, self: Id, st: State, rounds: seq<Round>, id: Id)
    requires Fixed(options, st, id)
    ensures AllName(History(options, self, st, rounds).0, id)
    decreases |rounds|
  {
    if rounds != [] {
      TurnKeepsIdentity(options, self, st, rounds[0], id);
      var (entries, outcome) := Turn(options, self, st, rounds[0]);
      if outcome.Again? {
        IdentityKept(options, self, outcome.st, rounds[1..], id);
      }
    }
  }

  /**
   Whatever discovery reports and whoever answers, a run has to do with one master only: the first
   it connects to or pairs with, which is the selected one, or the saved one if there is one to go by.
   */
  lemma {:induction false} IdentityPinned(options: Options, self: Id, st: State, rounds: seq<Round>)
    ensures var log := History(options, self, st, rounds).0;
      match First(log)
      case None => OnlyWaits(log)
      case Some(id) => AllName(log, id) && GoesBy(options, st.saved, id)
    decreases |rounds|
  {
    if rounds != [] {
      var (entries, outcome) := Turn(options, self, st, rounds[0]);
      TurnFixesIdentity(options, self, st, rounds[0]);
      if outcome.Again? {
        var more := History(options, self, outcome.st, rounds[1..]).0;
        if First(entries).None? {
          IdentityPinned(options, self, st, rounds[1..]);
          FirstBehindWaits(entries, more);
          if First(more).Some? {
            OnlyWaitsName(entries, First(more).value);
          }
        } else {
          FirstStays(entries, more);
          IdentityKept(options, self, outcome.st, rounds[1..], First(entries).value);
        }
      }
    }
  }

  lemma UsableAddress(addrs: seq<Addr>)
    requires exists i :: 0 <= i < |addrs| && addrs[i].ipv4
    ensures Usable(addrs) != []
  {
    var i :| 0 <= i < |addrs| && addrs[i].ipv4;
    assert addrs[i] in Usable(addrs);
  }

  /**
   `pair` names the first address of its target without looking whether there is one: there always
   is, because discovery only offers masters with an IPv4 address and a saved target has addresses.
   */
  lemma TargetsHaveAddresses(options: Options, self: Id, st: State, round: Round)
    requires st.saved.Some? ==> st.saved.value.addrs != []
    ensures var found := FindTarget(options, self, st.saved, round.browsed);
      found.Success? && found.value.Some? ==> found.value.value.addrs != []
    ensures var outcome := Turn(options, self, st, round).1;
      outcome.Again? && outcome.st.saved.Some? ==> outcome.st.saved.value.addrs != []
  {
    var found := FindTarget(options, self, st.saved, round.browsed);
    if found.Success? && found.value.Some? && !options.master.AtAddress? {
      var wanted := Requested(options, st.saved);
      SelectMasterDecides(round.browsed.value, wanted);
      var selected := SelectMaster(round.browsed.value, wanted).value;
      if selected.Some? {
        UsableAddress(selected.value.addrs);
      }
    }
    TurnNames(options, self, st, round);
  }

  // ---------- Which target ----------

  /** A device offers itself as the master looked for, at some IPv4 address. */
  ghost predicate Offers(peer: Peer, wanted: Option<Id>) {
    && peer.isMaster && peer.speaksProtocol
    && (wanted.Some? ==> peer.id == wanted.value)
    && exists a :: a in peer.addrs && a.ipv4
  }

  lemma OffersIsEligible(peer: Peer, wanted: Option<Id>)
    ensures Offers(peer, wanted) <==> Eligible(peer, wanted)
  {
  }

  /** The IPv4 addresses in their order, but the loopback ones behind the others. */
  ghost predicate Sorted(addrs: seq<Addr>, usable: seq<Addr>) {
    exists near, far :: usable == far + near && Picked(addrs, far, false) && Picked(addrs, near, true)
  }

  ghost predicate Picked(addrs: seq<Addr>, picked: seq<Addr>, loopback: bool)
    decreases |addrs|
  {
    if addrs == [] then picked == []
    else if addrs[0].ipv4 && addrs[0].loopback == loopback then
      picked != [] && picked[0] == addrs[0] && Picked(addrs[1..], picked[1..], loopback)
    else Picked(addrs[1..], picked, loopback)
  }

  lemma {:induction false} KeepPicks(addrs: seq<Addr>, loopback: bool)
    ensures Picked(addrs, Keep(addrs, loopback), loopback)
  {
    if addrs != [] {
      KeepPicks(addrs[1..], loopback);
      assert Keep(addrs, loopback)[..0] == [];
    }
  }

  lemma UsableIsSorted(addrs: seq<Addr>)
    ensures Sorted(addrs, Usable(addrs))
  {
    KeepPicks(addrs, false);
    KeepPicks(addrs, true);
  }

  /** Whom a worker looks for: the selected identity, or the saved one. */
  ghost predicate LooksFor(options: Options, saved: Option<Target>, wanted: Option<Id>) {
    if options.master.WithId? then wanted == Some(options.master.id)
    else if saved.Some? then wanted == saved.value.id
    else wanted.None?
  }

  /** At an eligible peer: its identity, its IPv4 addresses and its port. */
  ghost predicate TurnsTo(options: Options, p: Peer, target: Option<Target>) {
    && target.Some? && target.value.id == Some(p.id) && Sorted(p.addrs, target.value.addrs)
    && target.value.pairingPort == if p.pairingPort.Some? then p.pairingPort.value else options.pairingPort
  }

  ghost predicate TwoOffer(peers: seq<Peer>, wanted: Option<Id>) {
    exists i, j :: 0 <= i < j < |peers| && Offers(peers[i], wanted) && Offers(peers[j], wanted)
  }

  /**
   Where a worker turns to.  A given address is taken as it is, as somebody unknown unless it is a
   saved one; otherwise the one master that offers itself, or, if none does, the saved one if it is who
   is looked for; and the ways this fails.
   */
  lemma TargetDecides(options: Options, self: Id, saved: Option<Target>, browsed: Option<seq<Peer>>, wanted: Option<Id>)
    requires LooksFor(options, saved, wanted)
    ensures var r := FindTarget(options, self, saved, browsed);
      if options.master.AtAddress? then
        && r.Success? && r.value.Some?
        && r.value.value.addrs == [options.master.addr] && r.value.value.pairingPort == options.pairingPort
        && forall id: Id :: r.value.value.id == Some(id) <==>
             saved.Some? && options.master.addr in saved.value.addrs && saved.value.id == Some(id)
      else
        && (r == Failure(SelfSelected) <==> wanted == Some(self))
        && (r == Failure(BrowseFailed) <==> wanted != Some(self) && browsed.None?)
        && (r == Failure(Ambiguous) <==> wanted != Some(self) && browsed.Some? && TwoOffer(browsed.value, wanted))
        && (r.Failure? ==> r.error.SelfSelected? || r.error.BrowseFailed? || r.error.Ambiguous?)
        && (r.Success? ==>
              browsed.Some?
              && (forall p | p in browsed.value && Offers(p, wanted) :: TurnsTo(options, p, r.value))
              && ((forall p | p in browsed.value :: !Offers(p, wanted)) ==>
                    r.value == if saved.Some? && saved.value.id == wanted then saved else None))
  {
    if !options.master.AtAddress? && wanted != Some(self) && browsed.Some? {
      BrowsingDecides(options, self, saved, browsed.value, wanted);
    }
  }

  lemma BrowsingDecides(options: Options, self: Id, saved: Option<Target>, browsed: seq<Peer>, wanted: Option<Id>)
    requires LooksFor(options, saved, wanted) && !options.master.AtAddress? && wanted != Some(self)
    ensures var r := FindTarget(options, self, saved, Some(browsed));
      if TwoOffer(browsed, wanted) then r == Failure(Ambiguous)
      else
        && r.Success?
        && (forall p | p in browsed && Offers(p, wanted) :: TurnsTo(options, p, r.value))
        && ((forall p | p in browsed :: !Offers(p, wanted)) ==>
              r.value == if saved.Some? && saved.value.id == wanted then saved else None)
  {
    SelectionOffers(browsed, wanted);
    var selected := SelectMaster(browsed, wanted);
    if selected.Success? && selected.value.Some? {
      UsableIsSorted(selected.value.value.addrs);
    }
  }

  /** The selection, in terms of who offers himself. */
  lemma SelectionOffers(peers: seq<Peer>, wanted: Option<Id>)
    ensures var r := SelectMaster(peers, wanted);
      && (TwoOffer(peers, wanted) ==> r == Failure(Ambiguous))
      && (!TwoOffer(peers, wanted) ==> r.Success? && forall p | p in peers && Offers(p, wanted) :: r.value == Some(p))
      && ((forall p | p in peers :: !Offers(p, wanted)) ==> r == Success(None))
  {
    forall p: Peer
      ensures Offers(p, wanted) <==> Eligible(p, wanted)
    {
      OffersIsEligible(p, wanted);
    }
    TwoAreTwo(peers, wanted);
    SelectMasterDecides(peers, wanted);
    OneIsTheOne(peers, wanted);
  }

  lemma TwoAreTwo(peers: seq<Peer>, wanted: Option<Id>)
    requires forall p: Peer :: Offers(p, wanted) <==> Eligible(p, wanted)
    ensures TwoOffer(peers, wanted) <==> TwoEligible(peers, wanted)
  {
  }

  /** If there is a choice, it is every eligible peer's, for there is only one. */
  lemma OneIsTheOne(peers: seq<Peer>, wanted: Option<Id>)
    ensures var r := SelectMaster(peers, wanted);
      r.Success? ==> forall p | p in peers && Eligible(p, wanted) :: r.value == Some(p)
  {
    SelectMasterDecides(peers, wanted);
    var r := SelectMaster(peers, wanted);
    if r.Success? {
      forall p | p in peers && Eligible(p, wanted)
        ensures r.value == Some(p)
      {
        var i :| 0 <= i < |peers| && peers[i] == p;
        assert SomeEligible(peers, wanted);
        var j :| 0 <= j < |peers| && peers[j] == r.value.value;
        assert i < j ==> TwoEligible(peers, wanted);
        assert j < i ==> TwoEligible(peers, wanted);
      }
    }
  }

  // ---------- What a turn does, and when ----------

  /** With a target: a code is at hand, or nobody wanted answers and the target is nobody known. */
  ghost predicate Pairs(st: State, target: Target, round: Round) {
    st.hasCode ||
      (NobodyAnswers(target.addrs, target.id, round.answers) && (target.id.None? || target.id.value !in round.known))
  }

  /** The pairing endpoint that answers first is the target or the target was unknown, and code and exchange succeed. */
  ghost predicate Accepted(st: State, target: Target, round: Round, id: Id) {
    && (st.hasCode || round.codeTyped) && round.exchanged
    && FirstToAnswer(target.addrs, None, round.pairingAnswers, id)
    && (target.id.None? || target.id.value == id)
  }

  /** The turn gets a connection: at once, without a code, or by dialing again after it has paired. */
  ghost predicate Reaches(st: State, target: Target, round: Round, id: Id) {
    if Pairs(st, target, round) then
      Accepted(st, target, round, id) && FirstToAnswer(target.addrs, Some(id), round.redialAnswers, id)
    else FirstToAnswer(target.addrs, target.id, round.answers, id)
  }

  lemma AcceptedIs(st: State, target: Target, round: Round)
    ensures forall id: Id :: PairWith(target, st.hasCode, round) == Some(id) <==> Accepted(st, target, round, id)
  {
    assert target.addrs[..0] == [];
    FirstWantedIs(target.addrs, None, round.pairingAnswers, 0);
  }

  /** The entries a log has of each kind, but for its waits. */
  ghost predicate Tells(log: seq<Entry>, paired: Option<Id>, reached: Option<Id>, registered: bool, lost: bool) {
    && (forall id: Id :: Paired(id) in log <==> paired == Some(id))
    && (forall id: Id :: Connected(id) in log <==> reached == Some(id))
    && (forall id: Id :: RegisteredWith(id) in log <==> registered && reached == Some(id))
    && (forall id: Id :: Authorised(Some(id)) in log <==> registered && reached == Some(id))
    && (forall id: Id :: Lost(id) in log <==> lost && reached == Some(id))
  }

  lemma ServedTells(st: State, target: Target, peer: Id, round: Round)
    ensures var (entries, outcome) := Served(st, target, peer, round);
      && Tells(entries, None, Some(peer), round.registration.Registered?, round.registration.Registered?
          && round.written)
      && outcome ==
        if round.registration.NotAccepted? then Exits(RegistrationFailed)
        else if round.registration.Registered? && !round.written then Exits(NotWritten)
        else Again(st.(saved := Some(target.(id := Some(peer)))))
  {
  }

  lemma TellsBehind(before: seq<Entry>, log: seq<Entry>, paired: Option<Id>, reached: Option<Id>, registered: bool,
                    lost: bool)
    requires Tells(log, None, reached, registered, lost)
    requires forall e | e in before :: e.Waits? || (e.Paired? && paired == Some(e.id))
    requires paired.Some? ==> Paired(paired.value) in before
    ensures Tells(before + log, paired, reached, registered, lost)
  {
  }

  lemma TellsNothing(waits: seq<Entry>)
    requires OnlyWaits(waits)
    ensures Tells(waits, None, None, false, false)
  {
  }

  lemma PairedTells(target: Target, round: Round) returns (reached: Option<Id>)
    requires target.id.Some?
    ensures forall id: Id :: reached == Some(id) <==>
      target.id == Some(id) && FirstToAnswer(target.addrs, target.id, round.redialAnswers, id)
    ensures var (entries, outcome) := PairedWith(target, round);
      var registered := reached.Some? && round.registration.Registered?;
      && Tells(entries, target.id, reached, registered, registered && round.written)
      && outcome ==
        if reached.Some? && round.registration.NotAccepted? then Exits(RegistrationFailed)
        else if registered && !round.written then Exits(NotWritten)
        else Again(State(Some(target), false))
  {
    var st := State(Some(target), false);
    assert target.addrs[..0] == [];
    FirstWantedIs(target.addrs, target.id, round.redialAnswers, 0);
    reached := FirstWanted(target.addrs, target.id, round.redialAnswers, 0);
    var begun := [Paired(target.id.value), Waits];
    if reached.None? {
      TellsNothing([Waits]);
      TellsBehind(begun, [Waits], target.id, None, false, false);
      assert begun + [Waits] == [Paired(target.id.value), Waits, Waits];
    } else {
      ServedTells(st, target, reached.value, round);
      TellsBehind(begun, Served(st, target, reached.value, round).0, target.id, reached,
                  round.registration.Registered?, round.registration.Registered? && round.written);
    }
  }

  /** How a turn with a target ends. */
  function Ending(st: State, target: Target, round: Round, pairs: bool, paired: Option<Id>,
                  reached: Option<Id>): Outcome {
    if pairs && paired.None? then Exits(PairingFailed)
    else if reached.Some? && round.registration.NotAccepted? then Exits(RegistrationFailed)
    else if reached.Some? && round.registration.Registered? && !round.written then Exits(NotWritten)
    else
      var known := if reached.Some? then reached else paired;
      Again(State(if known.Some? then Some(target.(id := known)) else st.saved, false))
  }

  lemma TurnAtTells(st: State, target: Target, round: Round) returns (paired: Option<Id>, reached: Option<Id>)
    ensures forall id: Id :: paired == Some(id) <==> Pairs(st, target, round) && Accepted(st, target, round, id)
    ensures forall id: Id :: reached == Some(id) <==> Reaches(st, target, round, id)
    ensures var (entries, outcome) := TurnAt(st, target, round);
      var registered := reached.Some? && round.registration.Registered?;
      && Tells(entries, paired, reached, registered, registered && round.written)
      && outcome == Ending(st, target, round, Pairs(st, target, round), paired, reached)
  {
    if Pairs(st, target, round) {
      paired, reached := PairingTells(st, target, round);
    } else {
      paired := None;
      reached := DialingTells(st, target, round);
    }
  }

  lemma DialingTells(st: State, target: Target, round: Round) returns (reached: Option<Id>)
    requires !Pairs(st, target, round)
    ensures forall id: Id :: reached == Some(id) <==> Reaches(st, target, round, id)
    ensures var (entries, outcome) := TurnAt(st, target, round);
      var registered := reached.Some? && round.registration.Registered?;
      && Tells(entries, None, reached, registered, registered && round.written)
      && outcome == Ending(st, target, round, false, None, reached)
  {
    assert target.addrs[..0] == [];
    FirstWantedIs(target.addrs, target.id, round.answers, 0);
    reached := FirstWanted(target.addrs, target.id, round.answers, 0);
    if reached.Some? {
      ServedTells(st, target, reached.value, round);
      TellsBehind([Waits], Served(st, target, reached.value, round).0, None, reached,
                  round.registration.Registered?, round.registration.Registered? && round.written);
    } else {
      TellsNothing([Waits] + [Waits]);
    }
  }

  lemma PairingTells(st: State, target: Target, round: Round) returns (paired: Option<Id>, reached: Option<Id>)
    requires Pairs(st, target, round)
    ensures forall id: Id :: paired == Some(id) <==> Accepted(st, target, round, id)
    ensures forall id: Id :: reached == Some(id) <==> Reaches(st, target, round, id)
    ensures var (entries, outcome) := TurnAt(st, target, round);
      var registered := reached.Some? && round.registration.Registered?;
      && Tells(entries, paired, reached, registered, registered && round.written)
      && outcome == Ending(st, target, round, true, paired, reached)
  {
    assert target.addrs[..0] == [];
    FirstWantedIs(target.addrs, target.id, round.answers, 0);
    AcceptedIs(st, target, round);
    var waits := (if st.hasCode then [] else [Waits]) + [Waits];
    paired, reached := PairWith(target, st.hasCode, round), None;
    if paired.Some? {
      reached := PairedTells(target.(id := paired), round);
      var registered := reached.Some? && round.registration.Registered?;
      AfterWaits(waits, PairedWith(target.(id := paired), round).0, paired, reached, registered,
                 registered && round.written);
    } else {
      TellsNothing(waits);
    }
  }

  lemma AfterWaits(waits: seq<Entry>, log: seq<Entry>, paired: Option<Id>, reached: Option<Id>, registered: bool,
                   lost: bool)
    requires OnlyWaits(waits) && Tells(log, paired, reached, registered, lost)
    ensures Tells(waits + log, paired, reached, registered, lost)
  {
  }

  /**
   What a turn does, and exactly when: whom it pairs with, whom it connects to, registers with and
   loses, how it ends and what it leaves saved.
   */
  lemma TurnTells(options: Options, self: Id, st: State, round: Round) returns (paired: Option<Id>, reached: Option<Id>)
    ensures var (entries, outcome) := Turn(options, self, st, round);
      var found := FindTarget(options, self, st.saved, round.browsed);
      if found.Failure? then OnlyWaits(entries) && outcome == Exits(found.error)
      else if found.value.None? then OnlyWaits(entries) && outcome == Again(st)
      else
        var target := found.value.value;
        var registered := reached.Some? && round.registration.Registered?;
        && (forall id: Id :: paired == Some(id) <==> Pairs(st, target, round) && Accepted(st, target, round, id))
        && (forall id: Id :: reached == Some(id) <==> Reaches(st, target, round, id))
        && Tells(entries, paired, reached, registered, registered && round.written)
        && outcome == Ending(st, target, round, Pairs(st, target, round), paired, reached)
  {
    paired, reached := None, None;
    var found := FindTarget(options, self, st.saved, round.browsed);
    if found.Success? && found.value.Some? {
      paired, reached := TurnAtTells(st, found.value.value, round);
      var registered := reached.Some? && round.registration.Registered?;
      AfterWaits([Waits], TurnAt(st, found.value.value, round).0, paired, reached, registered, registered
        && round.written);
    }
  }

  /**
   A turn asks for a pairing, whether it gets one or gives up on it, if and only if a code is at hand,
   or nobody wanted answers and the target is nobody known.
   */
  lemma TurnPairsIff(options: Options, self: Id, st: State, round: Round)
    requires var found := FindTarget(options, self, st.saved, round.browsed); found.Success? && found.value.Some?
    ensures var (entries, outcome) := Turn(options, self, st, round);
      var target := FindTarget(options, self, st.saved, round.browsed).value.value;
      (exists id: Id :: Paired(id) in entries) || outcome == Exits(PairingFailed) <==>
        || st.hasCode
        || (NobodyAnswers(target.addrs, target.id, round.answers)
            && (target.id.None? || target.id.value !in round.known))
  {
    var paired, reached := TurnTells(options, self, st, round);
    var entries := Turn(options, self, st, round).0;
    assert paired.Some? ==> Paired(paired.value) in entries;
  }

  /** A worker without a code whose master is known in every round is never asked for one, however often it is away. */
  lemma {:induction false} KnownNeverPairs(options: Options, self: Id, st: State, rounds: seq<Round>, id: Id)
    requires Fixed(options, st, id) && !st.hasCode && forall i | 0 <= i < |rounds| :: id in rounds[i].known
    ensures var (log, last) := History(options, self, st, rounds);
      (forall other: Id :: Paired(other) !in log) && last != Exits(PairingFailed)
    decreases |rounds|
  {
    if rounds != [] {
      TargetOf(options, self, st.saved, rounds[0].browsed);
      var paired, reached := TurnTells(options, self, st, rounds[0]);
      TurnKeepsIdentity(options, self, st, rounds[0], id);
      var (entries, outcome) := Turn(options, self, st, rounds[0]);
      if outcome.Again? {
        KnownNeverPairs(options, self, outcome.st, rounds[1..], id);
      }
    }
  }

  // ---------- Who is authorised ----------

  /**
   The master the worker is registered with, from the registration to the loss; and whom the runtime takes
   orders from.
   */
  datatype Status = Status(phase: Option<Id>, master: Option<Id>)

  const UNREGISTERED := Status(None, None)

  function NextStatus(s: Status, e: Entry): Status {
    match e
    case RegisteredWith(id) => s.(phase := Some(id))
    case Lost(_) => s.(phase := None)
    case Authorised(master) => s.(master := master)
    case _ => s
  }

  function After(s: Status, log: seq<Entry>): Status
    decreases |log|
  {
    if log == [] then s else After(NextStatus(s, log[0]), log[1..])
  }

  lemma {:induction false} AfterOneMore(s: Status, log: seq<Entry>, e: Entry)
    ensures After(s, log + [e]) == NextStatus(After(s, log), e)
    decreases |log|
  {
    if log == [] {
      assert (log + [e])[1..] == [];
    } else {
      assert (log + [e])[1..] == log[1..] + [e];
      AfterOneMore(NextStatus(s, log[0]), log[1..], e);
    }
  }

  /**
   Whenever the two differ, the very next thing the loop does, without waiting, is the authorisation
   that makes them agree.
   */
  ghost predicate InStep(s: Status, log: seq<Entry>)
    decreases |log|
  {
    log == [] || ((s.master == s.phase || log[0] == Authorised(s.phase)) && InStep(NextStatus(s, log[0]), log[1..]))
  }

  lemma {:induction false} AfterBoth(s: Status, a: seq<Entry>, b: seq<Entry>)
    ensures After(s, a + b) == After(After(s, a), b)
    ensures InStep(s, a + b) <==> InStep(s, a) && InStep(After(s, a), b)
    decreases |a|
  {
    if a == [] {
      assert a + b == b;
    } else {
      assert (a + b)[1..] == a[1..] + b;
      AfterBoth(NextStatus(s, a[0]), a[1..], b);
    }
  }

  /**
   A part of the loop begins unregistered, stays in step, and ends with the two agreeing, unregistered if
   it goes on.
   */
  ghost predicate Orderly(entries: seq<Entry>, outcome: Outcome) {
    var end := After(UNREGISTERED, entries);
    InStep(UNREGISTERED, entries) && end.master == end.phase && (outcome.Again? ==> end == UNREGISTERED)
  }

  lemma {:induction false} BehindIdle(idle: seq<Entry>, entries: seq<Entry>, outcome: Outcome)
    requires forall i | 0 <= i < |idle| :: idle[i].Waits? || idle[i].Paired?
    requires Orderly(entries, outcome)
    ensures Orderly(idle + entries, outcome)
  {
    if idle == [] {
      assert idle + entries == entries;
    } else {
      BehindIdle(idle[1..], entries, outcome);
      assert (idle + entries)[1..] == idle[1..] + entries;
    }
  }

  predicate Follows(s: Status, e: Entry) {
    s.master == s.phase || e == Authorised(s.phase)
  }

  lemma OneEntry(s: Status, a: Entry)
    ensures After(s, [a]) == NextStatus(s, a) && (InStep(s, [a]) <==> Follows(s, a))
  {
    assert [a][1..] == [];
  }

  lemma TwoEntries(s: Status, a: Entry, b: Entry)
    ensures After(s, [a, b]) == NextStatus(NextStatus(s, a), b)
    ensures InStep(s, [a, b]) <==> Follows(s, a) && Follows(NextStatus(s, a), b)
    ensures After(s, [a]) == NextStatus(s, a) && (InStep(s, [a]) <==> Follows(s, a))
  {
    OneEntry(s, a);
    OneEntry(NextStatus(s, a), b);
    AfterBoth(s, [a], [b]);
    assert [a] + [b] == [a, b];
  }

  lemma ServedOrderly(st: State, target: Target, peer: Id, round: Round)
    ensures var (entries, outcome) := Served(st, target, peer, round);
      Orderly(entries, outcome)
  {
    var asked, joining := [Connected(peer), Waits], [RegisteredWith(peer), Authorised(Some(peer))];
    var lost, left := [Waits, Lost(peer)], [Authorised(None), Waits];
    var held, gone := Status(Some(peer), Some(peer)), Status(None, Some(peer));
    TwoEntries(UNREGISTERED, Connected(peer), Waits);
    TwoEntries(UNREGISTERED, RegisteredWith(peer), Authorised(Some(peer)));
    TwoEntries(held, Waits, Lost(peer));
    TwoEntries(gone, Authorised(None), Waits);
    TwoEntries(UNREGISTERED, Waits, Waits);
    AfterBoth(UNREGISTERED, asked, [Waits]);
    AfterBoth(UNREGISTERED, asked, joining);
    AfterBoth(UNREGISTERED, asked + joining, lost);
    AfterBoth(UNREGISTERED, asked + joining + lost, left);
    assert asked + joining + lost + left == asked + joining + [Waits, Lost(peer), Authorised(None), Waits];
  }

  lemma TurnOrderly(options: Options, self: Id, st: State, round: Round)
    ensures var (entries, outcome) := Turn(options, self, st, round);
      Orderly(entries, outcome)
  {
    var found := FindTarget(options, self, st.saved, round.browsed);
    IdleOrderly();
    if found.Success? && found.value.Some? {
      TurnAtOrderly(st, found.value.value, round);
      var (entries, outcome) := TurnAt(st, found.value.value, round);
      BehindIdle([Waits], entries, outcome);
    }
  }

  lemma IdleOrderly()
    ensures forall outcome :: Orderly([Waits], outcome) && Orderly([Waits, Waits], outcome)
  {
    assert [Waits, Waits][1..] == [Waits] && [Waits][1..] == [];
  }

  lemma TurnAtOrderly(st: State, target: Target, round: Round)
    ensures var (entries, outcome) := TurnAt(st, target, round);
      Orderly(entries, outcome)
  {
    var dialed := if st.hasCode then [] else [Waits];
    var peer := if st.hasCode then None else FirstWanted(target.addrs, target.id, round.answers, 0);
    var (whole, outcome) := TurnAt(st, target, round);
    IdleOrderly();
    if peer.Some? {
      ServedOrderly(st, target, peer.value, round);
      BehindIdle(dialed, Served(st, target, peer.value, round).0, outcome);
    } else {
      var id := PairWith(target, st.hasCode, round);
      if id.Some? && !(st.hasCode == false && target.id.Some? && target.id.value in round.known) {
        PairedOrderly(target.(id := id), round);
        BehindIdle(dialed + [Waits], PairedWith(target.(id := id), round).0, outcome);
      } else {
        BehindIdle(dialed, [Waits], outcome);
      }
    }
  }

  lemma PairedOrderly(target: Target, round: Round)
    requires target.id.Some?
    ensures var (entries, outcome) := PairedWith(target, round);
      Orderly(entries, outcome)
  {
    var st := State(Some(target), false);
    var redialed := FirstWanted(target.addrs, target.id, round.redialAnswers, 0);
    var (entries, outcome) := PairedWith(target, round);
    IdleOrderly();
    if redialed.None? {
      BehindIdle([Paired(target.id.value)], [Waits, Waits], outcome);
    } else {
      ServedOrderly(st, target, redialed.value, round);
      BehindIdle([Paired(target.id.value), Waits], Served(st, target, redialed.value, round).0, outcome);
    }
  }

  lemma {:induction false} HistoryOrderly(options: Options, self: Id, st: State, rounds: seq<Round>)
    ensures var (entries, outcome) := History(options, self, st, rounds);
      Orderly(entries, outcome)
    decreases |rounds|
  {
    if rounds != [] {
      TurnOrderly(options, self, st, rounds[0]);
      var (entries, outcome) := Turn(options, self, st, rounds[0]);
      if outcome.Again? {
        HistoryOrderly(options, self, outcome.st, rounds[1..]);
        AfterBoth(UNREGISTERED, entries, History(options, self, outcome.st, rounds[1..]).0);
      }
    }
  }

  lemma {:induction false} InStepAt(s: Status, log: seq<Entry>, n: nat)
    requires InStep(s, log) && n < |log|
    ensures var now := After(s, log[..n]); now.master == now.phase || log[n] == Authorised(now.phase)
    decreases n
  {
    if n > 0 {
      InStepAt(NextStatus(s, log[0]), log[1..], n - 1);
      assert log[..n][1..] == log[1..][..n - 1];
    }
  }

  /**
   At every wait of every run the runtime takes orders from exactly the master the worker is
   registered with, and from nobody when it is with none.  In between they differ only from a
   registration to its authorisation and from a loss to the withdrawal, which follow at once.
   */
  lemma AuthorisedIffRegistered(options: Options, self: Id, st: State, rounds: seq<Round>, n: nat)
    requires n < |History(options, self, st, rounds).0|
    ensures var log := History(options, self, st, rounds).0;
      var now := After(UNREGISTERED, log[..n]);
      && (log[n].Waits? ==> now.master == now.phase)
      && (now.master == now.phase || log[n] == Authorised(now.phase))
  {
    HistoryOrderly(options, self, st, rounds);
    InStepAt(UNREGISTERED, History(options, self, st, rounds).0, n);
  }

  lemma CutOrderly(log: seq<Entry>, outcome: Outcome, patience: nat)
    requires Orderly(log, outcome)
    ensures var now := After(UNREGISTERED, RecordAll(Recorder([], patience, false), log).log);
      now.master == now.phase
  {
    var cut := RecordAll(Recorder([], patience, false), log);
    var k := RecordedIsPrefix(Recorder([], patience, false), log);
    assert cut.log == log[..k];
    if cut.stopped {
      InStepAt(UNREGISTERED, log, k - 1);
      assert log[..k] == log[..k - 1] + [Waits];
      AfterOneMore(UNREGISTERED, log[..k - 1], Waits);
    } else {
      assert log[..k] == log;
    }
  }

  /**
   Whichever wait a shutdown signal cuts, and however a run ends without one, what the guard has to
   withdraw is the master the worker is registered with at that moment, if any.
   */
  lemma GuardFindsRegistered(options: Options, self: Id, st: State, rounds: seq<Round>, patience: nat)
    ensures var now := After(UNREGISTERED,
        RecordAll(Recorder([], patience, false), History(options, self, st, rounds).0).log);
      now.master == now.phase
  {
    HistoryOrderly(options, self, st, rounds);
    CutOrderly(History(options, self, st, rounds).0, History(options, self, st, rounds).1, patience);
  }
}
