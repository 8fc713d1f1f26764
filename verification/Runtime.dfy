/**
 A worker's GPU runtime, crates/latticed/src/runtime.rs: who may use the GPU, the one RPC server
 process behind it, and the single slot.

 `WorkerRuntime` is the object, each method one critical section of its mutex.  Below it, any
 number of `connect` and `capabilities` calls run as tasks that interleave between those sections,
 with changes of master and server exits anywhere.
 */
module Runtime {
  import opened Wrappers

  type Id = nat

  datatype Error = Restricted | WaitFailed | Exited | StartFailed | Busy | NotReady | QueryFailed | Cancelled

  /** A server process; `serial` numbers the processes started, `tenure` is when it was. */
  datatype Server = Server(serial: nat, tenure: nat)

  /**
   The guarded state, the processes that are running, how many were started, and how often the
   master has changed.
   */
  datatype Guarded = Guarded(master: Option<Id>, server: Option<Server>, running: set<nat>, started: nat, tenure: nat)

  // ---------- The critical sections ----------

  /** Dropping a `Server` kills its process. */
  function Killed(g: Guarded): Guarded {
    if g.server.None? then g else g.(server := None, running := g.running - {g.server.value.serial})
  }

  function Authorized(g: Guarded, master: Option<Id>): Guarded {
    if g.master != master then Killed(g).(master := master, tenure := g.tenure + 1) else g
  }

  function Checked(g: Guarded, from: Id, waitFails: bool): (Guarded, Option<Error>) {
    if g.master != Some(from) then (g, Some(Restricted))
    else if g.server.None? then (g, None)
    else if waitFails then (g, Some(WaitFailed))
    else if g.server.value.serial !in g.running then (Killed(g), Some(Exited))
    else (g, None)
  }

  function Addressed(g: Guarded, from: Id, waitFails: bool, starts: bool): (Guarded, Result<nat, Error>) {
    if g.master != Some(from) then (g, Failure(Restricted))
    else if g.server.Some? && waitFails then (g, Failure(WaitFailed))
    else if g.server.Some? && g.server.value.serial in g.running then (g, Success(g.server.value.serial))
    else if !starts then (Killed(g), Failure(StartFailed))
    else
      var k := Killed(g);
      (k.(server := Some(Server(g.started, g.tenure)), running := k.running + {g.started}, started := g.started + 1),
       Success(g.started))
  }

  class WorkerRuntime {
    var master: Option<Id>
    var server: Option<Server>
    var running: set<nat>
    var started: nat
    var tenure: nat

    constructor ()
      ensures View() == Guarded(None, None, {}, 0, 0)
    {
      master, server, running, started, tenure := None, None, {}, 0, 0;
    }

    function View(): Guarded
      reads this
    {
      Guarded(master, server, running, started, tenure)
    }

    method DropServer()
      modifies this
      ensures View() == Killed(old(View()))
    {
      if server.Some? {
        running := running - {server.value.serial};
        server := None;
      }
    }

    method Authorize(id: Option<Id>)
      modifies this
      ensures View() == Authorized(old(View()), id)
    {
      if master != id {
        DropServer();
        master := id;
        tenure := tenure + 1;
      }
    }

    method CheckHealth(from: Id, waitFails: bool) returns (error: Option<Error>)
      modifies this
      ensures (View(), error) == Checked(old(View()), from, waitFails)
    {
      if master != Some(from) {
        return Some(Restricted);
      }
      if server.Some? {
        if waitFails {
          return Some(WaitFailed);
        }
        if server.value.serial !in running {
          DropServer();
          return Some(Exited);
        }
      }
      error := None;
    }

    /** The running server's process, or a new one. */
    method Address(from: Id, waitFails: bool, starts: bool) returns (r: Result<nat, Error>)
      modifies this
      ensures (View(), r) == Addressed(old(View()), from, waitFails, starts)
    {
      if master != Some(from) {
        return Failure(Restricted);
      }
      if server.Some? {
        if waitFails {
          return Failure(WaitFailed);
        }
        if server.value.serial in running {
          return Success(server.value.serial);
        }
        DropServer();
      }
      if !starts {
        return Failure(StartFailed);
      }
      r := Success(started);
      server := Some(Server(started, tenure));
      running := running + {started};
      started := started + 1;
    }
  }

  // ---------- What the sections decide ----------

  /** The registered server's process runs. */
  predicate Serving(g: Guarded) {
    g.server.Some? && g.server.value.serial in g.running
  }

  /**
   `address` succeeds for the master, unless looking at its server fails, if that server runs or a new
   one starts.  What it names is then the registered process, and it runs: the one that did, with
   nothing started or killed, or a new one of the present tenure in place of one that had exited.
   */
  lemma AddressDecides(g: Guarded, from: Id, waitFails: bool, starts: bool)
    ensures var (after, r) := Addressed(g, from, waitFails, starts);
      && (r.Success? <==> g.master == Some(from) && !(g.server.Some? && waitFails) && (Serving(g) || starts))
      && (r.Success? ==> after.master == Some(from) && Serving(after) && after.server.value.serial == r.value)
      && (r.Success? && Serving(g) ==> after == g)
      && (r.Success? && !Serving(g) ==>
            after.server == Some(Server(g.started, g.tenure)) && after.started == g.started + 1
            && after.tenure == g.tenure && after.running == g.running + {g.started})
      && (r == Failure(Restricted) <==> g.master != Some(from))
      && (r == Failure(WaitFailed) <==> g.master == Some(from) && g.server.Some? && waitFails)
      && (r == Failure(Restricted) || r == Failure(WaitFailed) ==> after == g)
      && (r.Failure? && r.error != Restricted && r.error != WaitFailed ==>
            r.error == StartFailed && after == g.(server := None))
  {
    assert !Serving(g) && g.server.Some? ==> g.running - {g.server.value.serial} == g.running;
  }

  /** A check passes for the master, whether it has no server or one that runs; one that has exited is taken out. */
  lemma CheckDecides(g: Guarded, from: Id, waitFails: bool)
    ensures var (after, error) := Checked(g, from, waitFails);
      && (error.None? <==> g.master == Some(from) && (g.server.None? || (!waitFails && Serving(g))))
      && (error == Some(Restricted) <==> g.master != Some(from))
      && (error == Some(WaitFailed) <==> g.master == Some(from) && g.server.Some? && waitFails)
      && (error == Some(Exited) <==> g.master == Some(from) && g.server.Some? && !waitFails && !Serving(g))
      && after == if error == Some(Exited) then g.(server := None) else g
  {
    assert !Serving(g) && g.server.Some? ==> g.running - {g.server.value.serial} == g.running;
  }

  /** A change of master leaves no server, registered or running, and begins a tenure; no change, nothing. */
  lemma AuthorizeDecides(g: Guarded, master: Option<Id>)
    ensures var after := Authorized(g, master);
      && after.master == master && after.started == g.started
      && (g.master == master ==> after == g)
      && (g.master != master ==>
            after.server.None? && after.tenure == g.tenure + 1
            && after.running == if g.server.Some? then g.running - {g.server.value.serial} else g.running)
  {
  }

  // ---------- Tasks ----------

  /**
   Where a `connect` is, and, below it, a `capabilities`; a server seen by `address` comes with the tenure
   it was seen in.
   */
  datatype Pc =
    | Entered | Waiting | Acquired | Rechecked
    | Polling(server: Server) | Dialing(server: Server) | Dialed(server: Server) | Session(server: Server)
    | Asked | Trying | Tried(busy: bool) | Queried(busy: bool) | Answered(busy: bool)
    | Failed(error: Error) | Closed

  datatype Task = Task(from: Id, pc: Pc)

  /** `free` is the semaphore. */
  datatype State = State(guarded: Guarded, free: nat, tasks: seq<Task>)

  datatype DialOutcome = TcpOpen | TcpRefused | PastDeadline

  datatype Event =
    | Authorize(master: Option<Id>)
    | Exit(serial: nat)
    | Connect(from: Id)
    | Capabilities(from: Id)
    | Check(i: nat, waitFails: bool)
    | Acquire(i: nat)
    | Address(i: nat, waitFails: bool, starts: bool)
    | Dial(i: nat, outcome: DialOutcome)
    | Query(i: nat, found: bool)
    | Abandon(i: nat)

  const INITIAL := State(Guarded(None, None, {}, 0, 0), 1, [])

  predicate Holds(pc: Pc) {
    match pc
    case Acquired | Rechecked | Polling(_) | Dialing(_) | Dialed(_) | Session(_) => true
    case Tried(busy) => !busy
    case Queried(busy) => !busy
    case _ => false
  }

  /** Moves a task; a permit it held and no longer needs goes back. */
  function Goto(s: State, i: nat, pc: Pc): State
    requires i < |s.tasks|
  {
    var released := if Holds(s.tasks[i].pc) && !Holds(pc) then 1 else 0;
    s.(tasks := s.tasks[i := s.tasks[i].(pc := pc)], free := s.free + released)
  }

  /** Where a passed check leads. */
  function AfterCheck(pc: Pc): Option<Pc> {
    match pc
    case Entered => Some(Waiting)
    case Acquired => Some(Rechecked)
    case Polling(server) => Some(Dialing(server))
    case Dialed(server) => Some(Session(server))
    case Asked => Some(Trying)
    case Queried(busy) => Some(Answered(busy))
    case _ => None
  }

  function Step(s: State, e: Event): Option<State> {
    match e
    case Authorize(master) => Some(s.(guarded := Authorized(s.guarded, master)))
    case Exit(serial) => Some(s.(guarded := s.guarded.(running := s.guarded.running - {serial})))
    case Connect(from) => Some(s.(tasks := s.tasks + [Task(from, Entered)]))
    case Capabilities(from) => Some(s.(tasks := s.tasks + [Task(from, Asked)]))
    case Check(i, waitFails) =>
      if i >= |s.tasks| || AfterCheck(s.tasks[i].pc).None? then None
      else
        var (g, error) := Checked(s.guarded, s.tasks[i].from, waitFails);
        var pc := if error.Some? then Failed(error.value) else AfterCheck(s.tasks[i].pc).value;
        Some(Goto(s.(guarded := g), i, pc))
    case Acquire(i) =>
      if i >= |s.tasks| then None
      else if s.tasks[i].pc.Waiting? && s.free > 0 then
        Some(s.(free := s.free - 1, tasks := s.tasks[i := s.tasks[i].(pc := Acquired)]))
      else if s.tasks[i].pc.Trying? then
        Some(s.(free := if s.free > 0 then s.free - 1 else 0,
                tasks := s.tasks[i := s.tasks[i].(pc := Tried(s.free == 0))]))
      else None
    case Address(i, waitFails, starts) =>
      if i >= |s.tasks| || !s.tasks[i].pc.Rechecked? then None
      else
        var (g, r) := Addressed(s.guarded, s.tasks[i].from, waitFails, starts);
        var pc := if r.Failure? then Failed(r.error) else Polling(Server(r.value, g.tenure));
        Some(Goto(s.(guarded := g), i, pc))
    case Dial(i, outcome) =>
      if i >= |s.tasks| || !s.tasks[i].pc.Dialing? then None
      else
        var server := s.tasks[i].pc.server;
        Some(Goto(s, i, match outcome
                        case TcpOpen => Dialed(server)
                        case TcpRefused => Polling(server)
                        case PastDeadline => Failed(NotReady)))
    case Query(i, found) =>
      if i >= |s.tasks| || !s.tasks[i].pc.Tried? then None
      else if !s.tasks[i].pc.busy && !found then Some(Goto(s, i, Failed(QueryFailed)))
      else Some(Goto(s, i, Queried(s.tasks[i].pc.busy)))
    case Abandon(i) =>
      if i >= |s.tasks| then None
      else
        match s.tasks[i].pc
        case Waiting => Some(Goto(s, i, Failed(Busy)))
        case Polling(_) | Dialing(_) => Some(Goto(s, i, Failed(Cancelled)))
        case Session(_) => Some(Goto(s, i, Closed))
        case _ => None
  }

  /** A run: the states between the events, from the start on. */
  ghost predicate IsRun(run: seq<State>, events: seq<Event>) {
    && |run| == |events| + 1
    && run[0] == INITIAL
    && forall n, m | 0 <= n < |events| && m == n + 1 :: Step(run[n], events[n]) == Some(run[m])
  }

  // ---------- The invariant ----------

  /**
   The only process that can be running is the registered one, started in the current tenure of a
   registered master.
   */
  ghost predicate GuardedOk(g: Guarded) {
    && (g.server.Some? ==>
          && g.master.Some?
          && g.server.value.tenure == g.tenure
          && g.server.value.serial < g.started)
    && (forall p | p in g.running :: g.server.Some? && g.server.value.serial == p)
  }

  /** The one permit is free, or with exactly one task. */
  ghost predicate PermitOk(free: nat, tasks: seq<Task>) {
    && free <= 1
    && (forall i, j | 0 <= i < |tasks| && 0 <= j < |tasks| && Holds(tasks[i].pc) && Holds(tasks[j].pc) :: i == j)
    && (free == 1 <==> forall i | 0 <= i < |tasks| :: !Holds(tasks[i].pc))
  }

  predicate HasServer(pc: Pc) {
    pc.Polling? || pc.Dialing? || pc.Dialed? || pc.Session?
  }

  /** What a task may believe about the server it was given: still in its tenure, it is that one or none. */
  ghost predicate BeliefOk(g: Guarded, t: Task) {
    HasServer(t.pc) ==>
      && t.pc.server.serial < g.started
      && t.pc.server.tenure <= g.tenure
      && (t.pc.server.tenure == g.tenure ==> g.master == Some(t.from))
      && (g.server.Some? ==> (g.server.value.serial == t.pc.server.serial <==> t.pc.server.tenure == g.tenure))
  }

  ghost predicate Ok(s: State) {
    GuardedOk(s.guarded) && PermitOk(s.free, s.tasks) && forall i | 0 <= i < |s.tasks| ::
      BeliefOk(s.guarded, s.tasks[i])
  }

  lemma GuardedKept(g: Guarded, from: Id, master: Option<Id>, waitFails: bool, starts: bool)
    requires GuardedOk(g)
    ensures GuardedOk(Authorized(g, master))
    ensures GuardedOk(Checked(g, from, waitFails).0)
    ensures GuardedOk(Addressed(g, from, waitFails, starts).0)
  {
  }

  lemma MovedPermit(free: nat, tasks: seq<Task>, i: nat, t: Task, free': nat)
    requires PermitOk(free, tasks) && i < |tasks|
    requires free' + (if Holds(t.pc) then 1 else 0) == free + if Holds(tasks[i].pc) then 1 else 0
    ensures PermitOk(free', tasks[i := t])
  {
    var tasks' := tasks[i := t];
    assert forall j | 0 <= j < |tasks| && j != i :: tasks'[j] == tasks[j];
    assert tasks'[i] == t;
    if Holds(tasks[i].pc) || Holds(t.pc) {
      assert forall j | 0 <= j < |tasks| && j != i :: !Holds(tasks[j].pc);
      assert forall j | 0 <= j < |tasks'| && j != i :: !Holds(tasks'[j].pc);
    } else {
      assert forall j | 0 <= j < |tasks| :: Holds(tasks'[j].pc) == Holds(tasks[j].pc);
      assert free == 0 ==> exists j :: 0 <= j < |tasks| && Holds(tasks[j].pc) && Holds(tasks'[j].pc);
    }
  }

  lemma AddedPermit(free: nat, tasks: seq<Task>, t: Task)
    requires PermitOk(free, tasks) && !Holds(t.pc)
    ensures PermitOk(free, tasks + [t])
  {
    var tasks' := tasks + [t];
    assert forall j | 0 <= j < |tasks| :: tasks'[j] == tasks[j];
    assert free == 0 ==> exists j :: 0 <= j < |tasks| && Holds(tasks[j].pc) && Holds(tasks'[j].pc);
  }

  lemma PermitKept(s: State, e: Event)
    requires PermitOk(s.free, s.tasks) && Step(s, e).Some?
    ensures PermitOk(Step(s, e).value.free, Step(s, e).value.tasks)
  {
    var s' := Step(s, e).value;
    if e.Connect? || e.Capabilities? {
      AddedPermit(s.free, s.tasks, s'.tasks[|s.tasks|]);
    } else if !e.Authorize? && !e.Exit? {
      MovedPermit(s.free, s.tasks, e.i, s'.tasks[e.i], s'.free);
    }
  }

  /** Only a task that holds the permit gets to start a server, so no other holder's belief is disturbed. */
  lemma BeliefsKept(s: State, e: Event, j: nat)
    requires Ok(s) && Step(s, e).Some? && j < |Step(s, e).value.tasks|
    ensures BeliefOk(Step(s, e).value.guarded, Step(s, e).value.tasks[j])
  {
    if j < |s.tasks| {
      assert BeliefOk(s.guarded, s.tasks[j]);
      if e.Address? && e.i != j {
        assert Holds(s.tasks[e.i].pc) && !Holds(s.tasks[j].pc);
      }
    }
  }

  lemma StepKeeps(s: State, e: Event)
    requires Ok(s) && Step(s, e).Some?
    ensures Ok(Step(s, e).value)
  {
    PermitKept(s, e);
    if e.Check? || e.Address? {
      GuardedKept(s.guarded, s.tasks[e.i].from, None, e.waitFails, e.Address? && e.starts);
    } else if e.Authorize? {
      GuardedKept(s.guarded, 0, e.master, false, false);
    }
    forall j | 0 <= j < |Step(s, e).value.tasks|
      ensures BeliefOk(Step(s, e).value.guarded, Step(s, e).value.tasks[j])
    {
      BeliefsKept(s, e, j);
    }
  }

  lemma {:induction false} AlwaysOk(run: seq<State>, events: seq<Event>, n: nat)
    requires IsRun(run, events) && n < |run|
    ensures Ok(run[n])
  {
    if n > 0 {
      AlwaysOk(run, events, n - 1);
      assert Step(run[n - 1], events[n - 1]) == Some(run[n]);
      StepKeeps(run[n - 1], events[n - 1]);
    }
  }

  /**
   Over every interleaving: at most one permit is out, and none is lost; at most one server process
   runs, the registered one, and only while a master is registered, started in that master's present tenure.
   */
  lemma OnePermitOneServer(run: seq<State>, events: seq<Event>, n: nat)
    requires IsRun(run, events) && n < |run|
    ensures var s := run[n];
      && (forall i, j | 0 <= i < j < |s.tasks| :: !(Holds(s.tasks[i].pc) && Holds(s.tasks[j].pc)))
      && (s.free == 1 <==> forall i | 0 <= i < |s.tasks| :: !Holds(s.tasks[i].pc))
      && (s.free == 0 <==> exists i :: 0 <= i < |s.tasks| && Holds(s.tasks[i].pc))
    ensures var g := run[n].guarded;
      && (g.server.Some? ==> g.master.Some? && g.server.value.tenure == g.tenure)
      && (forall p | p in g.running :: g.server == Some(Server(p, g.tenure)))
  {
    AlwaysOk(run, events, n);
  }

  // ---------- What a session has been through ----------

  /** The task is there under this name and holds the permit. */
  predicate HeldBy(s: State, i: nat, from: Id) {
    i < |s.tasks| && s.tasks[i].from == from && Holds(s.tasks[i].pc)
  }

  lemma EntersDialed(s: State, e: Event, i: nat)
    requires Step(s, e).Some? && i < |Step(s, e).value.tasks|
    requires var t := Step(s, e).value.tasks[i]; t.pc.Dialed? && (i < |s.tasks| ==> s.tasks[i] != t)
    ensures e == Dial(i, TcpOpen)
    ensures HeldBy(s, i, Step(s, e).value.tasks[i].from)
  {
  }

  lemma EntersSession(s: State, e: Event, i: nat)
    requires Step(s, e).Some? && i < |Step(s, e).value.tasks|
    requires var t := Step(s, e).value.tasks[i]; t.pc.Session? && (i < |s.tasks| ==> s.tasks[i] != t)
    ensures e.Check? && e.i == i && i < |s.tasks|
    ensures s.tasks[i] == Step(s, e).value.tasks[i].(pc := Dialed(Step(s, e).value.tasks[i].pc.server))
    ensures s.guarded.master == Some(s.tasks[i].from)
  {
  }

  lemma {:induction false} DialedHistory(run: seq<State>, events: seq<Event>, n: nat, i: nat) returns (dialed: nat)
    requires IsRun(run, events) && n < |run|
    requires i < |run[n].tasks| && run[n].tasks[i].pc.Dialed?
    ensures dialed < n && events[dialed] == Dial(i, TcpOpen)
    ensures forall k | dialed <= k <= n :: HeldBy(run[k], i, run[n].tasks[i].from)
  {
    var t := run[n].tasks[i];
    assert n > 0;
    assert Step(run[n - 1], events[n - 1]) == Some(run[n]);
    if i < |run[n - 1].tasks| && run[n - 1].tasks[i] == t {
      dialed := DialedHistory(run, events, n - 1, i);
    } else {
      EntersDialed(run[n - 1], events[n - 1], i);
      dialed := n - 1;
    }
  }

  /**
   Every session was opened by a task that, after its TCP connection came up, passed a check
   against the registered master, and that has held the permit ever since it dialed.
   */
  lemma {:induction false} SessionHistory(run: seq<State>, events: seq<Event>, n: nat, i: nat)
    returns (dialed: nat, checked: nat)
    requires IsRun(run, events) && n < |run|
    requires i < |run[n].tasks| && run[n].tasks[i].pc.Session?
    ensures dialed < checked < n
    ensures events[dialed] == Dial(i, TcpOpen) && events[checked].Check? && events[checked].i == i
    ensures run[checked].guarded.master == Some(run[n].tasks[i].from)
    ensures forall k | dialed <= k <= n :: HeldBy(run[k], i, run[n].tasks[i].from)
  {
    var t := run[n].tasks[i];
    assert n > 0;
    assert Step(run[n - 1], events[n - 1]) == Some(run[n]);
    if i < |run[n - 1].tasks| && run[n - 1].tasks[i] == t {
      dialed, checked := SessionHistory(run, events, n - 1, i);
    } else {
      EntersSession(run[n - 1], events[n - 1], i);
      dialed := DialedHistory(run, events, n - 1, i);
      checked := n - 1;
    }
  }

  // ---------- Is there a server behind it? ----------

  /**
   The check that opens a session looks at the registered server, not at the one that was dialed.
   The dialed process is still running if and only if its master's tenure has not ended since
   `address` and no other check has found the process gone and taken it out of the state.
   */
  lemma SessionIsLiveIff(run: seq<State>, events: seq<Event>, n: nat, i: nat)
    requires IsRun(run, events) && n < |events|
    requires i < |run[n].tasks| && run[n].tasks[i].pc.Dialed? && events[n].Check? && events[n].i == i
    requires Step(run[n], events[n]).value.tasks[i].pc.Session?
    ensures var g, server := run[n].guarded, run[n].tasks[i].pc.server;
      server.serial in g.running <==> server.tenure == g.tenure && g.server.Some?
  {
    AlwaysOk(run, events, n);
  }

  lemma Extended(run: seq<State>, events: seq<Event>, e: Event) returns (run': seq<State>, events': seq<Event>)
    requires IsRun(run, events) && Step(run[|run| - 1], e).Some?
    ensures IsRun(run', events') && run'[|run'| - 1] == Step(run[|run| - 1], e).value
  {
    run', events' := run + [Step(run[|run| - 1], e).value], events + [e];
  }

  /** One master, one call, up to the TCP connection. */
  const ONE_DIALED := State(Guarded(Some(1), Some(Server(0, 1)), {0}, 1, 1), 0, [Task(1, Dialed(Server(0, 1)))])

  lemma OneDialed() returns (run: seq<State>, events: seq<Event>)
    ensures IsRun(run, events) && run[|run| - 1] == ONE_DIALED
  {
    run, events := [INITIAL], [];
    run, events := Extended(run, events, Authorize(Some(1)));
    run, events := Extended(run, events, Connect(1));
    run, events := Extended(run, events, Check(0, false));
    run, events := Extended(run, events, Acquire(0));
    run, events := Extended(run, events, Check(0, false));
    run, events := Extended(run, events, Address(0, false, true));
    run, events := Extended(run, events, Check(0, false));
    run, events := Extended(run, events, Dial(0, TcpOpen));
  }

  /**
   The first half of the condition fails: the master leaves and comes back while the task waits for its
   second check.
   */
  lemma ReturnedMasterWithoutServer() returns (run: seq<State>, events: seq<Event>)
    ensures IsRun(run, events)
    ensures var s := run[|run| - 1];
      s.tasks == [Task(1, Session(Server(0, 1)))] && s.guarded.running == {} && s.guarded.tenure == 3
  {
    run, events := OneDialed();
    run, events := Extended(run, events, Authorize(None));
    run, events := Extended(run, events, Authorize(Some(1)));
    run, events := Extended(run, events, Check(0, false));
  }

  /** The second half fails: the server exits and another call's check reaps it. */
  lemma ReapedServer() returns (run: seq<State>, events: seq<Event>)
    ensures IsRun(run, events)
    ensures var s := run[|run| - 1];
      |s.tasks| == 2 && s.tasks[0] == Task(1, Session(Server(0, 1))) && s.guarded.running == {} && s.guarded.tenure == 1
  {
    run, events := OneDialed();
    run, events := Extended(run, events, Exit(0));
    run, events := Extended(run, events, Capabilities(1));
    run, events := Extended(run, events, Check(1, false));
    run, events := Extended(run, events, Check(0, false));
  }

  /** A device that nobody uses answers that it is not busy, once its GPU has been looked up. */
  lemma FreeIsAnswered() returns (run: seq<State>, events: seq<Event>)
    ensures IsRun(run, events) && run[|run| - 1].tasks == [Task(1, Answered(false))] && run[|run| - 1].free == 1
  {
    run, events := [INITIAL], [];
    run, events := Extended(run, events, Authorize(Some(1)));
    run, events := Extended(run, events, Capabilities(1));
    run, events := Extended(run, events, Check(0, false));
    run, events := Extended(run, events, Acquire(0));
    run, events := Extended(run, events, Query(0, true));
    run, events := Extended(run, events, Check(0, false));
  }

  /** One that is in use answers that it is, without looking its GPU up, and takes no permit away. */
  lemma BusyIsAnswered() returns (run: seq<State>, events: seq<Event>)
    ensures IsRun(run, events)
    ensures run[|run| - 1].tasks == [Task(1, Dialed(Server(0, 1))), Task(1, Answered(true))] && run[|run| - 1].free == 0
  {
    run, events := OneDialed();
    run, events := Extended(run, events, Capabilities(1));
    run, events := Extended(run, events, Check(1, false));
    run, events := Extended(run, events, Acquire(1));
    run, events := Extended(run, events, Query(1, false));
    run, events := Extended(run, events, Check(1, false));
  }
}
