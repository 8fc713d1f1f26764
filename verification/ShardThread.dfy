/**
 The thread that owns a device's shard, `ShardThread` and `run_step` in crates/latticed/src/node.rs:
 one queue of jobs, from any number of streams and sessions, over one shard with one cache.
 */
module ShardThread {
  import opened Wrappers
  import opened Llama
  import opened Attention
  import opened Shard

  /** `Done` reaches the executor only if a stream mishandles it; the thread refuses it. */
  datatype Work = Work(step: Step) | Done

  /** A load carries the weights it reads, or nothing if opening the shard fails. */
  datatype Job =
    | Load(weights: Option<Weights>)
    | Run(session: nat, work: Work)
    | Drop(session: nat)
  {
    ghost predicate Valid() {
      Load? && weights.Some? ==> weights.value.Valid()
    }
  }

  datatype Refusal = NoLayers | DoneIsTheStreams | ShardFailed(error: Error)

  datatype Reply = Loaded | LoadRefused | Answer(result: Result<Payload, Refusal>) | NoReply

  datatype Held = Held(w: Weights, st: State) {
    ghost predicate Valid() {
      w.Valid() && |st.kv| == |w.layers|
    }
  }

  ghost predicate ValidJobs(jobs: seq<Job>) {
    forall i | 0 <= i < |jobs| :: jobs[i].Valid()
  }

  // ---------- One job ----------

  function JobStep(held: Option<Held>, job: Job): (r: (Option<Held>, Reply))
    requires (held.Some? ==> held.value.Valid()) && job.Valid()
    ensures r.0.Some? ==> r.0.value.Valid()
  {
    match job
    case Load(weights) =>
      if weights.Some? then (Some(Held(weights.value, Opened(weights.value))), Loaded) else (held, LoadRefused)
    case Run(session, work) =>
      if held.None? then (held, Answer(Failure(NoLayers)))
      else (
        match work
        case Done => (held, Answer(Failure(DoneIsTheStreams)))
        case Work(step) =>
          var (out, st) := Call(held.value.w, held.value.st, session, step);
          (Some(held.value.(st := st)),
            Answer(if out.Success? then Success(out.value) else Failure(ShardFailed(out.error)))))
    case Drop(session) =>
      (if held.None? then None else Some(held.value.(st := Dropped(held.value.w, held.value.st, session))), NoReply)
  }

  /** What the device holds after a history of jobs. */
  function After(jobs: seq<Job>): (held: Option<Held>)
    requires ValidJobs(jobs)
    ensures held.Some? ==> held.value.Valid()
  {
    if jobs == [] then None else JobStep(After(jobs[..|jobs| - 1]), jobs[|jobs| - 1]).0
  }

  /** The reply to job `i` of a history; later jobs have no part in it. */
  function ReplyTo(jobs: seq<Job>, i: nat): Reply
    requires ValidJobs(jobs) && i < |jobs|
  {
    JobStep(After(jobs[..i]), jobs[i]).1
  }

  /** One more run, on a shard in a known state. */
  lemma AfterRun(jobs: seq<Job>, all: seq<Job>, held: Held, session: nat, step: Step)
    requires ValidJobs(jobs) && After(jobs) == Some(held) && all == jobs + [Run(session, Work(step))]
    ensures ValidJobs(all) && held.Valid()
    ensures After(all) == Some(held.(st := Call(held.w, held.st, session, step).1))
  {
    assert all[..|all| - 1] == jobs;
  }

  // ---------- The thread ----------

  class Thread {
    var held: CandleShard?

    ghost predicate Valid()
      reads this, held, if held == null then {} else {held.model}
    {
      held != null ==> held.Valid()
    }

    ghost function View(): Option<Held>
      reads this, held, if held == null then {} else {held.model}
    {
      if held == null then None else Some(Held(held.model.weights, held.View()))
    }

    constructor ()
      ensures Valid() && View() == None
    {
      held := null;
    }

    /** `run_step`. */
    method RunStep(session: nat, work: Work) returns (r: Result<Payload, Refusal>)
      requires Valid()
      modifies held, if held == null then {} else {held.model}
      ensures Valid() && held == old(held)
      ensures (View(), Answer(r)) == JobStep(old(View()), Run(session, work))
    {
      if held == null {
        return Failure(NoLayers);
      }
      if work.Done? {
        return Failure(DoneIsTheStreams);
      }
      var out;
      match work.step {
        case Prefill(pos, input) => out := held.Prefill(session, pos, input);
        case Decode(pos, input) => out := held.Decode(session, pos, input);
      }
      r := if out.Success? then Success(out.value) else Failure(ShardFailed(out.error));
    }

    /** One turn of the receive loop. */
    method Process(job: Job) returns (reply: Reply)
      requires Valid() && job.Valid()
      modifies this, held, if held == null then {} else {held.model}
      ensures Valid()
      ensures held != old(held) ==> fresh(held) && held != null && fresh(held.model)
      ensures held == old(held) ==> held != null ==> held.model == old(held.model)
      ensures (View(), reply) == JobStep(old(View()), job)
    {
      match job
      case Load(weights) =>
        if weights.None? {
          return LoadRefused;
        }
        var shard := new CandleShard(weights.value);
        held := shard;
        reply := Loaded;
      case Run(session, work) =>
        var r := RunStep(session, work);
        reply := Answer(r);
      case Drop(session) =>
        if held != null {
          held.DropSession(session);
        }
        reply := NoReply;
    }
  }

  /** The receive loop of a new thread over the jobs it is ever sent. */
  method Serve(inbox: seq<Job>) returns (thread: Thread, replies: seq<Reply>)
    requires ValidJobs(inbox)
    ensures fresh(thread) && thread.Valid() && thread.View() == After(inbox)
    ensures |replies| == |inbox| && forall i | 0 <= i < |inbox| :: replies[i] == ReplyTo(inbox, i)
  {
    thread := new Thread();
    replies := [];
    for n := 0 to |inbox|
      invariant thread.Valid() && fresh(thread)
      invariant thread.held != null ==> fresh(thread.held) && fresh(thread.held.model)
      invariant ValidJobs(inbox[..n]) && thread.View() == After(inbox[..n])
      invariant |replies| == n && forall i | 0 <= i < n :: replies[i] == ReplyTo(inbox, i)
    {
      assert inbox[..n + 1][..n] == inbox[..n];
      var reply := thread.Process(inbox[n]);
      replies := replies + [reply];
    }
    assert inbox[..|inbox|] == inbox;
  }

  // ---------- Session isolation ----------

  /** Steps replayed on cleared caches, with no notion of sessions at all. */
  function Replay(w: Weights, steps: seq<Step>): (st: State)
    requires w.Valid()
    ensures |st.kv| == |w.layers| && st.active == None
  {
    if steps == [] then Opened(w)
    else
      var last := steps[|steps| - 1];
      RunOn(w, Replay(w, steps[..|steps| - 1]), last.input, last.pos).1
  }

  /** A prefill that finds the cache another's, or starts at 0, clears it. */
  predicate Clears(active: Option<nat>, session: nat, step: Step) {
    step.Prefill? && (active != Some(session) || step.pos == 0)
  }

  /** The session a history leaves active and the places of the runs that made its cache. */
  datatype Live = Live(active: Option<nat>, runs: seq<nat>)

  function LiveNext(live: Live, job: Job, place: nat): Live {
    match job
    case Load(weights) => if weights.Some? then Live(None, []) else live
    case Run(session, Done) => live
    case Run(session, Work(step)) =>
      if Clears(live.active, session, step) then Live(Some(session), [place])
      else if live.active == Some(session) then live.(runs := live.runs + [place])
      else live
    case Drop(session) => if live.active == Some(session) then Live(None, []) else live
  }

  function LiveOf(jobs: seq<Job>): Live
    requires ValidJobs(jobs)
  {
    if jobs == [] then Live(None, [])
    else
      var before, job := jobs[..|jobs| - 1], jobs[|jobs| - 1];
      if After(before).None? && !job.Load? then Live(None, []) else LiveNext(LiveOf(before), job, |before|)
  }

  predicate IsStep(jobs: seq<Job>, place: nat) {
    place < |jobs| && jobs[place].Run? && jobs[place].work.Work?
  }

  function StepsAt(jobs: seq<Job>, runs: seq<nat>): (steps: seq<Step>)
    requires forall i | 0 <= i < |runs| :: IsStep(jobs, runs[i])
    ensures |steps| == |runs|
  {
    seq(|runs|, i requires 0 <= i < |runs| && IsStep(jobs, runs[i]) => jobs[runs[i]].work.step)
  }

  /** The runs are the active session's, one behind the other. */
  ghost predicate ItsRuns(jobs: seq<Job>, live: Live) {
    && (live.active.None? <==> live.runs == [])
    && (forall i | 0 <= i < |live.runs| ::
          IsStep(jobs, live.runs[i]) && live.active == Some(jobs[live.runs[i]].session))
    && forall i, j | 0 <= i < j < |live.runs| :: live.runs[i] < live.runs[j]
  }

  /** What is held is what steps make of empty caches. */
  ghost predicate MadeBy(held: Held, active: Option<nat>, steps: seq<Step>)
    requires held.Valid()
  {
    held.st == State(Replay(held.w, steps).kv, active)
  }

  /**
   Over every history of jobs from any number of streams: with no active session the caches are
   empty, and otherwise they are what runs of the active session, and no others, make of empty caches
   in their order.
   */
  lemma {:induction false} SessionsIsolated(jobs: seq<Job>)
    requires ValidJobs(jobs)
    ensures var live := LiveOf(jobs);
      && ItsRuns(jobs, live)
      && (After(jobs).Some? ==> MadeBy(After(jobs).value, live.active, StepsAt(jobs, live.runs)))
  {
    if jobs != [] {
      var before, job := jobs[..|jobs| - 1], jobs[|jobs| - 1];
      SessionsIsolated(before);
      assert jobs == before + [job];
      if After(before).None? && !job.Load? {
        assert StepsAt(jobs, []) == [];
      } else {
        RunsNext(before, LiveOf(before), job);
        if After(before).Some? {
          MadeNext(before, After(before).value, LiveOf(before), job);
        } else if job.weights.Some? {
          assert StepsAt(jobs, []) == [];
        }
      }
    }
  }

  lemma RunsNext(jobs: seq<Job>, live: Live, job: Job)
    requires ItsRuns(jobs, live)
    ensures ItsRuns(jobs + [job], LiveNext(live, job, |jobs|))
  {
  }

  lemma MadeNext(jobs: seq<Job>, held: Held, live: Live, job: Job)
    requires held.Valid() && job.Valid() && ItsRuns(jobs, live) && MadeBy(held, live.active, StepsAt(jobs, live.runs))
    ensures var next := LiveNext(live, job, |jobs|);
      && ItsRuns(jobs + [job], next)
      && var after := JobStep(Some(held), job).0;
         after.Some? && MadeBy(after.value, next.active, StepsAt(jobs + [job], next.runs))
  {
    var next := LiveNext(live, job, |jobs|);
    RunsNext(jobs, live, job);
    var steps, steps' := StepsAt(jobs, live.runs), StepsAt(jobs + [job], next.runs);
    if next == live {
      assert steps' == steps;
    } else if next.runs == [] {
      assert steps' == [];
    } else if |next.runs| == 1 {
      assert steps' == [job.work.step];
    } else {
      assert steps' == steps + [job.work.step];
    }
    if job.Run? && job.work.Work? {
      StepMakes(held, live.active, steps, job.session, job.work.step);
    }
  }

  lemma StepMakes(held: Held, active: Option<nat>, steps: seq<Step>, session: nat, step: Step)
    requires held.Valid() && MadeBy(held, active, steps)
    ensures var after := held.(st := Call(held.w, held.st, session, step).1);
      if Clears(active, session, step) then MadeBy(after, Some(session), [step])
      else if active == Some(session) then MadeBy(after, active, steps + [step])
      else after == held
  {
    if Clears(active, session, step) {
      ClearingMakes(held.w, held.st, session, step);
    } else if active == Some(session) {
      RunReplayed(held.w, steps, steps + [step], active, step);
    }
  }

  lemma ClearingMakes(w: Weights, st: State, session: nat, step: Step)
    requires w.Valid() && |st.kv| == |w.layers| && Clears(st.active, session, step)
    ensures Call(w, st, session, step).1 == State(Replay(w, [step]).kv, Some(session))
  {
    RunReplayed(w, [], [step], Some(session), step);
  }

  lemma RunReplayed(w: Weights, steps: seq<Step>, more: seq<Step>, active: Option<nat>, step: Step)
    requires w.Valid() && more == steps + [step]
    ensures RunOn(w, State(Replay(w, steps).kv, active), step.input, step.pos).1 == State(Replay(w, more).kv, active)
  {
    assert more[..|more| - 1] == steps;
    RunIgnoresActive(w, Replay(w, steps), active, step.input, step.pos);
  }

  lemma RunIgnoresActive(w: Weights, st: State, active: Option<nat>, input: Payload, pos: nat)
    requires w.Valid() && |st.kv| == |w.layers|
    ensures var (out, after) := RunOn(w, st, input, pos);
      RunOn(w, st.(active := active), input, pos) == (out, after.(active := active))
  {
  }

  /** A decode or a drop for a session that is not active changes nothing; such a decode is refused. */
  lemma OtherSessionsRefused(held: Held, session: nat, step: Step)
    requires held.Valid() && held.st.active != Some(session)
    ensures JobStep(Some(held), Drop(session)).0 == Some(held)
    ensures step.Decode? ==>
      JobStep(Some(held), Run(session, Work(step))) == (Some(held), Answer(Failure(ShardFailed(UnknownSession))))
  {
  }

  /** A reply depends on the jobs before it only. */
  lemma ReplyStable(jobs: seq<Job>, more: seq<Job>, i: nat)
    requires ValidJobs(jobs) && ValidJobs(more) && i < |jobs|
    ensures ValidJobs(jobs + more) && ReplyTo(jobs + more, i) == ReplyTo(jobs, i)
  {
    assert (jobs + more)[..i] == jobs[..i];
  }

  // ---------- A session's answers ----------

  /** A job that a shard of session `s`'s own would also have had. */
  predicate Concerns(job: Job, s: nat) {
    match job
    case Load(_) => true
    case Run(session, _) => session == s
    case Drop(session) => session == s
  }

  function Only(jobs: seq<Job>, s: nat): (own: seq<Job>)
    requires ValidJobs(jobs)
    ensures ValidJobs(own)
  {
    if jobs == [] then []
    else
      var init, last := jobs[..|jobs| - 1], jobs[|jobs| - 1];
      Only(init, s) + if Concerns(last, s) then [last] else []
  }

  lemma OnlyAppends(jobs: seq<Job>, job: Job, s: nat)
    requires ValidJobs(jobs) && job.Valid()
    ensures ValidJobs(jobs + [job])
    ensures Only(jobs + [job], s) == Only(jobs, s) + if Concerns(job, s) then [job] else []
  {
    assert (jobs + [job])[..|jobs|] == jobs;
  }

  lemma OnlyOneMore(jobs: seq<Job>, job: Job, s: nat)
    requires ValidJobs(jobs) && job.Valid()
    ensures ValidJobs(jobs + [job])
    ensures After(jobs + [job]) == JobStep(After(jobs), job).0
    ensures After(Only(jobs + [job], s)) ==
      if Concerns(job, s) then JobStep(After(Only(jobs, s)), job).0 else After(Only(jobs, s))
  {
    OnlyAppends(jobs, job, s);
    assert (jobs + [job])[..|jobs|] == jobs;
    if Concerns(job, s) {
      assert (Only(jobs, s) + [job])[..|Only(jobs, s)|] == Only(jobs, s);
    } else {
      assert Only(jobs + [job], s) == Only(jobs, s);
    }
  }

  /** The shard is the session's private one as long as it is the session's turn. */
  ghost predicate InSync(held: Option<Held>, own: Option<Held>, s: nat) {
    && held.Some? == own.Some?
    && (held.Some? ==>
          held.value.w == own.value.w
          && (held.value.st.active == Some(s) ==> held.value.st == own.value.st))
  }

  /**
   A prefill that means to go on from position `pos`, of a session that another one has displaced without
   its knowing.
   */
  predicate Displaced(held: Option<Held>, own: Option<Held>, job: Job, s: nat) {
    && held.Some? && own.Some?
    && job.Run? && job.session == s && job.work.Work? && job.work.step.Prefill? && job.work.step.pos != 0
    && held.value.st.active != Some(s) && own.value.st.active == Some(s)
  }

  ghost predicate NeverDisplaced(jobs: seq<Job>, s: nat)
    requires ValidJobs(jobs)
  {
    jobs == [] || (
      var init, last := jobs[..|jobs| - 1], jobs[|jobs| - 1];
      NeverDisplaced(init, s) && !Displaced(After(init), After(Only(init, s)), last, s))
  }

  lemma SyncStep(held: Option<Held>, own: Option<Held>, job: Job, s: nat)
    requires (held.Some? ==> held.value.Valid()) && (own.Some? ==> own.value.Valid()) && job.Valid()
    requires InSync(held, own, s) && !Displaced(held, own, job, s)
    ensures InSync(JobStep(held, job).0, if Concerns(job, s) then JobStep(own, job).0 else own, s)
    ensures Concerns(job, s) && job.Run? ==>
      var mine, alone := JobStep(held, job).1, JobStep(own, job).1;
      mine.Answer? && (mine.result.Success? ==> alone == mine)
  {
  }

  lemma {:induction false} SyncKept(jobs: seq<Job>, s: nat)
    requires ValidJobs(jobs) && NeverDisplaced(jobs, s)
    ensures InSync(After(jobs), After(Only(jobs, s)), s)
  {
    if jobs != [] {
      var init, last := jobs[..|jobs| - 1], jobs[|jobs| - 1];
      SyncKept(init, s);
      SyncStep(After(init), After(Only(init, s)), last, s);
      assert init + [last] == jobs;
      OnlyOneMore(init, last, s);
    }
  }

  /**
   Whatever other sessions do in between, a session that never goes on from a position it was
   displaced at gets, whenever it gets an answer at all, the answer a shard of its own would give.
   */
  lemma SuccessesArePrivate(jobs: seq<Job>, s: nat, work: Work)
    requires ValidJobs(jobs) && ValidJobs(jobs + [Run(s, work)]) && NeverDisplaced(jobs + [Run(s, work)], s)
    ensures var mine := JobStep(After(jobs), Run(s, work)).1;
      mine.Answer? && (mine.result.Success? ==> JobStep(After(Only(jobs, s)), Run(s, work)).1 == mine)
  {
    assert (jobs + [Run(s, work)])[..|jobs|] == jobs;
    SyncKept(jobs, s);
    SyncStep(After(jobs), After(Only(jobs, s)), Run(s, work), s);
  }

  /** A session that only ever prefills at position 0, as the decode loop does, is never displaced. */
  lemma {:induction false} PrefillsAtZeroAreSafe(jobs: seq<Job>, s: nat)
    requires ValidJobs(jobs)
    requires forall i | 0 <= i < |jobs| ::
      jobs[i].Run? && jobs[i].session == s && jobs[i].work.Work? && jobs[i].work.step.Prefill? ==>
        jobs[i].work.step.pos == 0
    ensures NeverDisplaced(jobs, s)
  {
    if jobs != [] {
      PrefillsAtZeroAreSafe(jobs[..|jobs| - 1], s);
    }
  }

  /**
   And what a displaced one gets: the shard answers as if it had just been opened.  It refuses more
   than one row, but takes a single one, which then attends to nothing of what the session sent before.
   */
  lemma DisplacedStartsOver(held: Held, s: nat, pos: nat, input: Payload)
    requires held.Valid() && held.w.layers != [] && held.st.active != Some(s) && pos != 0
    ensures var job := Run(s, Work(Step.Prefill(pos, input)));
      var reply := JobStep(Some(held), job).1;
      && reply == JobStep(Some(Held(held.w, Opened(held.w))), job).1
      && reply.Answer?
      && (reply.result.Success? <==>
            held.w.Reads(input) && |held.w.Embedded(input)| == 1 && pos < MAX_SEQ_LEN)
  {
    ClearingPrefill(held.w, held.st, s, pos, input);
  }

  /** With no prefill by another session, its shard is the private one in every respect. */
  ghost predicate Undisturbed(jobs: seq<Job>, s: nat) {
    forall i | 0 <= i < |jobs| :: jobs[i].Run? && jobs[i].session != s && jobs[i].work.Work? ==>
      !jobs[i].work.step.Prefill?
  }

  lemma UndisturbedStep(held: Option<Held>, job: Job, s: nat)
    requires (held.Some? ==> held.value.Valid()) && job.Valid()
    requires held.Some? && held.value.st.active.Some? ==> held.value.st.active == Some(s)
    requires job.Run? && job.session != s && job.work.Work? ==> !job.work.step.Prefill?
    ensures var after := JobStep(held, job).0;
      && (after.Some? && after.value.st.active.Some? ==> after.value.st.active == Some(s))
      && (!Concerns(job, s) ==> after == held)
  {
  }

  lemma {:induction false} UndisturbedIsPrivate(jobs: seq<Job>, s: nat)
    requires ValidJobs(jobs) && Undisturbed(jobs, s)
    ensures After(jobs) == After(Only(jobs, s))
    ensures After(jobs).Some? && After(jobs).value.st.active.Some? ==> After(jobs).value.st.active == Some(s)
  {
    if jobs != [] {
      var init, last := jobs[..|jobs| - 1], jobs[|jobs| - 1];
      UndisturbedIsPrivate(init, s);
      UndisturbedStep(After(init), last, s);
      assert init + [last] == jobs;
      OnlyOneMore(init, last, s);
    }
  }
}
