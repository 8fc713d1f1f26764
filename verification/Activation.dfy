/**
 The activation stream, crates/lattice-net/src/activation.rs: the master's `RemoteShard`, the
 device's `serve_stream`, and the queue of executor calls that every stream of a device feeds.
 The executor is arbitrary, and the only assumption about the transport is that a stream delivers
 its frames in order until it breaks.
 */
module Activation {
  import opened Wrappers
  import opened Integers
  import opened Llama
  import Shard

  type Step = Shard.Step

  datatype Frame = Request(step: Step) | Finish | Garbled

  type Answer = Result<Payload, string>

  /** A reply frame; `Executed(Failure(..))` is the source's `Failed` with the executor's reason. */
  datatype StepResult = Executed(answer: Answer) | Unintelligible

  /**
   The device's queue, in order: what streams put there, and the loads its control plane does.  A run
   has an answer once it has been executed.
   */
  datatype Job =
    | Run(session: nat, step: Step, answer: Option<Answer>)
    | Drop(session: nat)
    | Load(weights: Option<Weights>)

  // ---------- One stream served to its end ----------

  class Executor {
    var log: seq<Job>

    constructor ()
      ensures log == []
    {
      log := [];
    }

    /** Queues the step and waits; the answer is whatever the shard behind it makes of the step. */
    method Run(session: nat, step: Step, answer: Answer) returns (r: Answer)
      modifies this
      ensures log == old(log) + [Job.Run(session, step, Some(answer))] && r == answer
    {
      log := log + [Job.Run(session, step, Some(answer))];
      r := answer;
    }

    method DropSession(session: nat)
      modifies this
      ensures log == old(log) + [Job.Drop(session)]
    {
      log := log + [Job.Drop(session)];
    }
  }

  function RunsOf(session: nat, frames: seq<Frame>, answers: nat -> Answer, n: nat): seq<Job>
    requires n <= |frames| && forall i | 0 <= i < n :: frames[i].Request?
  {
    seq(n, i requires 0 <= i < n => Job.Run(session, frames[i].step, Some(answers(i))))
  }

  /** How many frames are executed, and what is answered. */
  ghost predicate Served(frames: seq<Frame>, answers: nat -> Answer, writable: nat, replies: seq<StepResult>,
                         executed: nat) {
    && executed <= |frames| && (forall i | 0 <= i < executed :: frames[i].Request?)
    && executed <= writable + 1
    && (executed <= writable ==> executed == |frames| || !frames[executed].Request?)
    && |replies| == Min(writable, executed + if executed < |frames| && frames[executed].Garbled? then 1 else 0)
    && forall k | 0 <= k < |replies| :: (replies[k] == if k < executed then Executed(answers(k)) else Unintelligible)
  }

  /**
   `serve_stream` over the frames that arrive before reading fails, with `writable` replies before
   writing does.  It executes the leading steps in order and answers each, until the frames end,
   one is not a step, or a reply is lost.  However it ends, the last job it queues is one drop.
   */
  method ServeStream(session: nat, frames: seq<Frame>, answers: nat -> Answer, writable: nat, executor: Executor)
    returns (replies: seq<StepResult>, executed: nat)
    modifies executor
    ensures Served(frames, answers, writable, replies, executed)
    ensures executor.log == old(executor.log) + RunsOf(session, frames, answers, executed) + [Job.Drop(session)]
  {
    replies, executed := [], 0;
    while executed < |frames|
      invariant executed <= |frames| && forall i | 0 <= i < executed :: frames[i].Request?
      invariant executed == |replies| <= writable
      invariant executor.log == old(executor.log) + RunsOf(session, frames, answers, executed)
      invariant forall k | 0 <= k < |replies| :: replies[k] == Executed(answers(k))
    {
      match frames[executed]
      case Finish => break;
      case Garbled =>
        if |replies| < writable {
          replies := replies + [Unintelligible];
        }
        break;
      case Request(step) =>
        var answer := executor.Run(session, step, answers(executed));
        assert RunsOf(session, frames, answers, executed + 1)
          == RunsOf(session, frames, answers, executed) + [Job.Run(session, step, Some(answer))];
        executed := executed + 1;
        if |replies| == writable {
          break;
        }
        replies := replies + [Executed(answer)];
    }
    executor.DropSession(session);
  }

  // ---------- Many streams, one queue ----------

  datatype Client = Idle | Waiting | Gone

  datatype Server = Reading | Awaiting(job: nat) | Ended

  /**
   One stream: frames and replies in flight, where each side is, what the master sent and got back,
   and which entries of the device's queue this stream put there.
   */
  datatype Channel = Channel(
    session: nat,
    up: seq<Frame>, down: seq<StepResult>,
    client: Client, server: Server,
    sent: seq<Step>, got: seq<StepResult>,
    runs: seq<nat>, drops: seq<nat>)

  /** The queue, how much of it the thread has executed, and the streams opened so far. */
  datatype State = State(queue: seq<Job>, served: nat, channels: seq<Channel>)

  datatype Event =
    | Open(session: nat)
    | Send(i: nat, step: Step) | SendDone(i: nat) | SendGarbled(i: nat) | Receive(i: nat) | Abandon(i: nat)
    | Read(i: nat) | ReadFails(i: nat) | Reply(i: nat) | ReplyFails(i: nat)
    | Serve(answer: Answer)
    | LoadShard(weights: Option<Weights>)

  ghost predicate Init(s: State) {
    s == State([], 0, [])
  }

  /** The server leaves its loop: one drop is queued. */
  function End(s: State, i: nat): State
    requires i < |s.channels|
  {
    var c := s.channels[i];
    s.(queue := s.queue + [Job.Drop(c.session)],
       channels := s.channels[i := c.(server := Ended, drops := c.drops + [|s.queue|])])
  }

  ghost predicate Next(s: State, e: Event, s': State) {
    match e
    case Open(session) =>
      s' == s.(channels := s.channels + [Channel(session, [], [], Idle, Reading, [], [], [], [])])
    case Send(i, step) =>
      && i < |s.channels| && s.channels[i].client.Idle?
      && var c := s.channels[i];
         var c' := c.(up := c.up + [Request(step)], sent := c.sent + [step], client := Waiting);
         s' == s.(channels := s.channels[i := c'])
    case SendDone(i) =>
      && i < |s.channels| && s.channels[i].client.Idle?
      && var c := s.channels[i];
         s' == s.(channels := s.channels[i := c.(up := c.up + [Finish], client := Gone)])
    case SendGarbled(i) =>
      && i < |s.channels| && s.channels[i].client.Idle?
      && var c := s.channels[i];
         s' == s.(channels := s.channels[i := c.(up := c.up + [Garbled], client := Gone)])
    case Receive(i) =>
      && i < |s.channels| && s.channels[i].client.Waiting? && s.channels[i].down != []
      && var c := s.channels[i];
         s' == s.(channels := s.channels[i := c.(down := c.down[1..], got := c.got + [c.down[0]], client := Idle)])
    case Abandon(i) =>
      && i < |s.channels|
      && s' == s.(channels := s.channels[i := s.channels[i].(client := Gone)])
    case Read(i) =>
      && i < |s.channels| && s.channels[i].server.Reading? && s.channels[i].up != []
      && var c := s.channels[i];
         var c' := c.(up := c.up[1..]);
         var t := s.(channels := s.channels[i := c']);
         (match c.up[0]
          case Request(step) =>
            s' == s.(queue := s.queue + [Job.Run(c.session, step, None)],
                     channels := s.channels[i := c'.(server := Awaiting(|s.queue|), runs := c.runs + [|s.queue|])])
          case Finish => s' == End(t, i)
          case Garbled =>
            s' == End(s.(channels := s.channels[i := c'.(down := c.down + [Unintelligible])]), i) || s' == End(t, i))
    case ReadFails(i) =>
      i < |s.channels| && s.channels[i].server.Reading? && s' == End(s, i)
    case Serve(answer) =>
      && s.served < |s.queue|
      && var job := s.queue[s.served];
         s' == s.(served := s.served + 1,
                  queue := s.queue[s.served := if job.Run? then job.(answer := Some(answer)) else job])
    case Reply(i) =>
      && i < |s.channels| && s.channels[i].server.Awaiting? && s.channels[i].server.job < s.served <= |s.queue|
      && var c := s.channels[i];
         var job := s.queue[c.server.job];
         && job.Run? && job.answer.Some?
         && s' == s.(channels := s.channels[i := c.(down := c.down + [Executed(job.answer.value)], server := Reading)])
    case ReplyFails(i) =>
      && i < |s.channels| && s.channels[i].server.Awaiting? && s.channels[i].server.job < s.served
      && s' == End(s, i)
    case LoadShard(weights) =>
      s' == s.(queue := s.queue + [Job.Load(weights)])
  }

  // ---------- A stream served to its end is a run of these events ----------

  ghost predicate Leads(run: seq<State>, events: seq<Event>, s: State, s': State) {
    && |run| == |events| + 1 && run[0] == s && run[|events|] == s'
    && forall i, j | 0 <= i < |events| && j == i + 1 :: Next(run[i], events[i], run[j])
  }

  lemma OneEvent(run: seq<State>, events: seq<Event>, s: State, s': State, e: Event, s'': State)
    returns (run': seq<State>, events': seq<Event>)
    requires Leads(run, events, s, s') && Next(s', e, s'')
    ensures Leads(run', events', s, s'')
  {
    run', events' := run + [s''], events + [e];
  }

  function Replies(answers: nat -> Answer, n: nat): seq<StepResult> {
    seq(n, k requires 0 <= k => Executed(answers(k)))
  }

  /** A stream about to be served: the frames have arrived and the thread is idle. */
  ghost predicate Arrived(s: State, i: nat, frames: seq<Frame>) {
    && s.served == |s.queue| && i < |s.channels|
    && s.channels[i].server.Reading? && s.channels[i].up == frames
  }

  /** The same after `n` steps have been executed and answered. */
  function AfterSteps(s: State, i: nat, answers: nat -> Answer, n: nat): State
    requires i < |s.channels| && n <= |s.channels[i].up|
    requires forall k | 0 <= k < n :: s.channels[i].up[k].Request?
  {
    var c := s.channels[i];
    State(s.queue + RunsOf(c.session, c.up, answers, n), s.served + n,
          s.channels[i := c.(up := c.up[n..], down := c.down + Replies(answers, n),
                             runs := c.runs + seq(n, k requires 0 <= k => |s.queue| + k))])
  }

  /** Reading a step and having it executed. */
  lemma OneExecuted(s: State, i: nat, step: Step, answer: Answer) returns (mid: State, after: State)
    requires s.served == |s.queue| && i < |s.channels| && s.channels[i].server.Reading?
    requires s.channels[i].up != [] && s.channels[i].up[0] == Request(step)
    ensures Next(s, Read(i), mid) && Next(mid, Serve(answer), after)
    ensures var c := s.channels[i];
      after == State(s.queue + [Job.Run(c.session, step, Some(answer))], s.served + 1,
                     s.channels[i := c.(up := c.up[1..], server := Awaiting(|s.queue|), runs := c.runs + [|s.queue|])])
  {
    var c := s.channels[i];
    var c' := c.(up := c.up[1..], server := Awaiting(|s.queue|), runs := c.runs + [|s.queue|]);
    mid := s.(queue := s.queue + [Job.Run(c.session, step, None)], channels := s.channels[i := c']);
    after := mid.(served := mid.served + 1, queue := s.queue + [Job.Run(c.session, step, Some(answer))]);
    assert after.queue == mid.queue[s.served := mid.queue[s.served].(answer := Some(answer))];
  }

  lemma OneReplied(s: State, i: nat, answers: nat -> Answer, n: nat, next: nat, after: State)
    requires i < |s.channels| && next == n + 1 <= |s.channels[i].up|
    requires forall k | 0 <= k < next :: s.channels[i].up[k].Request?
    requires s.served == |s.queue| && s.channels[i].server.Reading?
    requires var t := AfterSteps(s, i, answers, n);
      var c := t.channels[i];
      after == State(t.queue + [Job.Run(c.session, s.channels[i].up[n].step, Some(answers(n)))], t.served + 1,
                     t.channels[i := c.(up := c.up[1..], server := Awaiting(|t.queue|), runs := c.runs + [|t.queue|])])
    ensures Next(after, Reply(i), AfterSteps(s, i, answers, next))
  {
    var t, t', c := AfterSteps(s, i, answers, n), AfterSteps(s, i, answers, next), s.channels[i];
    assert RunsOf(c.session, c.up, answers, next)
      == RunsOf(c.session, c.up, answers, n) + [Job.Run(c.session, c.up[n].step, Some(answers(n)))];
    assert t'.queue == after.queue && t'.served == after.served;
    assert t'.channels[i].runs == after.channels[i].runs && t'.channels[i].up == after.channels[i].up;
    assert t'.channels[i].down == after.channels[i].down + [Executed(answers(n))];
  }

  lemma {:induction false} StepsInEvents(s: State, i: nat, frames: seq<Frame>, answers: nat -> Answer, n: nat)
    returns (run: seq<State>, events: seq<Event>)
    requires Arrived(s, i, frames) && n <= |frames| && forall k | 0 <= k < n :: frames[k].Request?
    ensures Leads(run, events, s, AfterSteps(s, i, answers, n))
  {
    if n == 0 {
      NothingYet(s, i, answers);
      run, events := [s], [];
    } else {
      var last := n - 1;
      var before := AfterSteps(s, i, answers, last);
      run, events := StepsInEvents(s, i, frames, answers, last);
      var mid, after := OneExecuted(before, i, frames[last].step, answers(last));
      OneReplied(s, i, answers, last, n, after);
      run, events := OneEvent(run, events, s, before, Read(i), mid);
      run, events := OneEvent(run, events, s, mid, Serve(answers(last)), after);
      run, events := OneEvent(run, events, s, after, Reply(i), AfterSteps(s, i, answers, n));
    }
  }

  lemma NothingYet(s: State, i: nat, answers: nat -> Answer)
    requires i < |s.channels|
    ensures AfterSteps(s, i, answers, 0) == s
  {
    var c := s.channels[i];
    assert s.queue + RunsOf(c.session, c.up, answers, 0) == s.queue;
    assert c.down + Replies(answers, 0) == c.down && c.up[0..] == c.up;
    assert c.runs + seq(0, k requires 0 <= k => |s.queue| + k) == c.runs;
  }

  /** What `ServeStream` leaves: its jobs behind what was queued, its replies on the wire, and no more reading. */
  ghost predicate Left(s: State, i: nat, frames: seq<Frame>, answers: nat -> Answer, replies: seq<StepResult>,
                       executed: nat, s': State)
    requires i < |s.channels| && executed <= |frames| && forall k | 0 <= k < executed :: frames[k].Request?
  {
    && |s'.channels| == |s.channels|
    && s'.queue == s.queue + RunsOf(s.channels[i].session, frames, answers, executed)
        + [Job.Drop(s.channels[i].session)]
    && s'.channels[i].down == s.channels[i].down + replies && s'.channels[i].server.Ended?
    && forall h | 0 <= h < |s.channels| && h != i :: s'.channels[h] == s.channels[h]
  }

  /** Every reply got out: the frames end, or one that is not a step ends them. */
  lemma EndsReading(s: State, i: nat, frames: seq<Frame>, answers: nat -> Answer, writable: nat,
                    replies: seq<StepResult>, executed: nat)
    returns (run: seq<State>, events: seq<Event>, s': State)
    requires Arrived(s, i, frames) && Served(frames, answers, writable, replies, executed) && executed <= writable
    ensures Leads(run, events, s, s') && Left(s, i, frames, answers, replies, executed, s')
  {
    run, events := StepsInEvents(s, i, frames, answers, executed);
    var t := AfterSteps(s, i, answers, executed);
    assert replies[..executed] == Replies(answers, executed);
    if |replies| > executed {
      var c := t.channels[i];
      assert replies == Replies(answers, executed) + [Unintelligible];
      s' := End(t.(channels := t.channels[i := c.(up := c.up[1..], down := c.down + [Unintelligible])]), i);
      run, events := OneEvent(run, events, s, t, Read(i), s');
    } else {
      assert replies == Replies(answers, executed);
      s' := if executed == |frames| then End(t, i)
        else End(t.(channels := t.channels[i := t.channels[i].(up := frames[executed..][1..])]), i);
      run, events := OneEvent(run, events, s, t, if executed == |frames| then ReadFails(i) else Read(i), s');
    }
  }

  /** The last reply did not get out. */
  lemma EndsReplying(s: State, i: nat, frames: seq<Frame>, answers: nat -> Answer, writable: nat,
                     replies: seq<StepResult>, executed: nat)
    returns (run: seq<State>, events: seq<Event>, s': State)
    requires Arrived(s, i, frames) && Served(frames, answers, writable, replies, executed) && executed == writable + 1
    ensures Leads(run, events, s, s') && Left(s, i, frames, answers, replies, executed, s')
  {
    run, events := StepsInEvents(s, i, frames, answers, writable);
    var t, c := AfterSteps(s, i, answers, writable), s.channels[i];
    var mid, after := OneExecuted(t, i, frames[writable].step, answers(writable));
    assert RunsOf(c.session, frames, answers, executed)
      == RunsOf(c.session, frames, answers, writable)
        + [Job.Run(c.session, frames[writable].step, Some(answers(writable)))];
    assert replies == Replies(answers, writable);
    s' := End(after, i);
    run, events := OneEvent(run, events, s, t, Read(i), mid);
    run, events := OneEvent(run, events, s, mid, Serve(answers(writable)), after);
    run, events := OneEvent(run, events, s, after, ReplyFails(i), s');
  }

  /** Whatever arrives and wherever writing fails: what `ServeStream` does is a run of these events. */
  lemma ServeStreamInEvents(s: State, i: nat, frames: seq<Frame>, answers: nat -> Answer, writable: nat,
                            replies: seq<StepResult>, executed: nat)
    returns (run: seq<State>, events: seq<Event>, s': State)
    requires Arrived(s, i, frames) && Served(frames, answers, writable, replies, executed)
    ensures Leads(run, events, s, s') && Left(s, i, frames, answers, replies, executed, s')
  {
    if executed <= writable {
      run, events, s' := EndsReading(s, i, frames, answers, writable, replies, executed);
    } else {
      run, events, s' := EndsReplying(s, i, frames, answers, writable, replies, executed);
    }
  }

  /**
   `RemoteShard::step` when nothing goes wrong: from between two steps, on a device with nothing else
   to do, one is sent, read, executed and answered, and the master has its answer.
   */
  lemma StepGetsThrough(s: State, i: nat, step: Step, answer: Answer)
    returns (run: seq<State>, events: seq<Event>, s': State)
    requires s.served == |s.queue| && i < |s.channels|
    requires var c := s.channels[i]; c.client.Idle? && c.server.Reading? && c.up == [] && c.down == []
    ensures Leads(run, events, s, s') && s'.queue == s.queue + [Job.Run(s.channels[i].session, step, Some(answer))]
    ensures |s'.channels| == |s.channels| && s'.served == |s'.queue|
    ensures var c, c' := s.channels[i], s'.channels[i];
      && c'.got == c.got + [Executed(answer)] && c'.sent == c.sent + [step]
      && c'.client.Idle? && c'.server.Reading? && c'.up == [] && c'.down == []
  {
    var c := s.channels[i];
    var c1 := c.(up := [Request(step)], sent := c.sent + [step], client := Waiting);
    var s1 := s.(channels := s.channels[i := c1]);
    assert c.up + [Request(step)] == [Request(step)];
    run, events := OneEvent([s], [], s, s, Send(i, step), s1);
    var mid, s2 := OneExecuted(s1, i, step, answer);
    run, events := OneEvent(run, events, s, s1, Read(i), mid);
    run, events := OneEvent(run, events, s, mid, Serve(answer), s2);
    var c3 := s2.channels[i].(down := [Executed(answer)], server := Reading);
    var s3 := s2.(channels := s2.channels[i := c3]);
    assert s2.channels[i].down + [Executed(answer)] == [Executed(answer)];
    run, events := OneEvent(run, events, s, s2, Reply(i), s3);
    assert c3.down[1..] == [] && c3.down[0] == Executed(answer);
    s' := s3.(channels := s3.channels[i := c3.(down := c3.down[1..], got := c3.got + [Executed(answer)],
      client := Idle)]);
    run, events := OneEvent(run, events, s, s3, Receive(i), s');
  }

  // ---------- The invariant of one stream ----------

  function Requests(steps: seq<Step>): seq<Frame> {
    seq(|steps|, i requires 0 <= i < |steps| => Request(steps[i]))
  }

  /** The answer the executor gave to the `k`-th run of a stream. */
  predicate Answered(queue: seq<Job>, c: Channel, k: nat, result: StepResult) {
    && k < |c.runs| && c.runs[k] < |queue|
    && queue[c.runs[k]].Run? && queue[c.runs[k]].answer.Some?
    && result == Executed(queue[c.runs[k]].answer.value)
  }

  /** Runs are the steps sent so far, in order; the drop is there exactly when the server has ended, behind them. */
  ghost predicate JobsInOrder(queue: seq<Job>, c: Channel) {
    && |c.runs| <= |c.sent|
    && (forall k | 0 <= k < |c.runs| ::
          && c.runs[k] < |queue|
          && queue[c.runs[k]].Run? && queue[c.runs[k]].session == c.session && queue[c.runs[k]].step == c.sent[k])
    && (forall j, k | 0 <= j < k < |c.runs| :: c.runs[j] < c.runs[k])
    && |c.drops| == (if c.server.Ended? then 1 else 0)
    && (c.server.Ended? ==>
          && c.drops[0] < |queue| && queue[c.drops[0]] == Job.Drop(c.session)
          && forall k | 0 <= k < |c.runs| :: c.runs[k] < c.drops[0])
  }

  /** The frames not yet read are the steps not yet run, and at most a farewell behind them. */
  ghost predicate FramesInOrder(c: Channel) {
    !c.server.Ended? && |c.runs| <= |c.sent| ==>
      var n := |c.sent| - |c.runs|;
      && n <= |c.up| <= n + 1
      && c.up[..n] == Requests(c.sent[|c.runs|..])
      && (|c.up| == n + 1 ==> !c.up[n].Request? && c.client.Gone?)
  }

  /** Replies match runs one to one; only a farewell that could not be read may add one the master never takes. */
  ghost predicate RepliesInOrder(queue: seq<Job>, c: Channel) {
    var out := c.got + c.down;
    && |c.got| <= |c.runs|
    && (c.server.Reading? ==> |out| == |c.runs|)
    && (c.server.Awaiting? ==> |out| + 1 == |c.runs| && c.server.job == c.runs[|c.runs| - 1])
    && (c.server.Ended? ==> |out| <= |c.runs| || (|out| == |c.runs| + 1 && c.client.Gone?))
    && forall k | 0 <= k < |out| && k < |c.runs| :: Answered(queue, c, k, out[k])
  }

  ghost predicate ClientInStep(c: Channel) {
    && (c.client.Idle? ==> |c.got| == |c.sent| && c.down == [])
    && (c.client.Waiting? ==> |c.got| + 1 == |c.sent|)
  }

  ghost predicate ChannelOk(queue: seq<Job>, c: Channel) {
    JobsInOrder(queue, c) && FramesInOrder(c) && RepliesInOrder(queue, c) && ClientInStep(c)
  }

  /** Jobs keep their place; the thread has answered the first `served` runs and no other. */
  ghost predicate Ok(s: State) {
    && s.served <= |s.queue|
    && (forall j | 0 <= j < |s.queue| && s.queue[j].Run? :: s.queue[j].answer.Some? <==> j < s.served)
    && forall i | 0 <= i < |s.channels| :: ChannelOk(s.queue, s.channels[i])
  }

  // ---------- Every event keeps it ----------

  /** What other streams and the thread may do to the queue: add jobs, answer runs. */
  ghost predicate Extends(queue: seq<Job>, queue': seq<Job>) {
    && |queue| <= |queue'|
    && forall j | 0 <= j < |queue| ::
         || queue'[j] == queue[j]
         || (queue[j].Run? && queue[j].answer.None? && queue'[j].Run?
             && queue'[j] == queue[j].(answer := queue'[j].answer))
  }

  lemma ExtendsKeeps(queue: seq<Job>, queue': seq<Job>, c: Channel)
    requires ChannelOk(queue, c) && Extends(queue, queue')
    ensures ChannelOk(queue', c)
  {
  }

  /** Serving fills in one answer; any other event adds at most one job, a load only if one was sent. */
  lemma QueueGrows(s: State, e: Event, s': State)
    requires Next(s, e, s')
    ensures |s.queue| <= |s'.queue| <= |s.queue| + 1
    ensures !e.Serve? ==> s'.queue[..|s.queue|] == s.queue
    ensures |s'.queue| > |s.queue| ==>
      var job := s'.queue[|s.queue|];
      !e.Serve? && (job.Load? ==> e.LoadShard? && job.weights == e.weights)
    ensures e.Serve? ==>
      && (forall j | 0 <= j < |s.queue| && j != s.served :: s'.queue[j] == s.queue[j])
      && s.served < |s.queue|
      && match s.queue[s.served]
         case Run(session, step, _) => s'.queue[s.served] == Job.Run(session, step, Some(e.answer))
         case other => s'.queue[s.served] == other
  {
  }

  lemma SendStepKeeps(queue: seq<Job>, c: Channel, step: Step)
    requires ChannelOk(queue, c) && c.client.Idle?
    ensures ChannelOk(queue, c.(up := c.up + [Request(step)], sent := c.sent + [step], client := Waiting))
  {
    var sent := c.sent + [step];
    if !c.server.Ended? {
      assert sent[|c.runs|..] == c.sent[|c.runs|..] + [step];
      OneMoreSent(c.up, c.sent[|c.runs|..], step);
    }
  }

  lemma SendLastKeeps(queue: seq<Job>, c: Channel, last: Frame)
    requires ChannelOk(queue, c) && c.client.Idle? && !last.Request?
    ensures ChannelOk(queue, c.(up := c.up + [last], client := Gone))
  {
    var c' := c.(up := c.up + [last], client := Gone);
    assert JobsInOrder(queue, c') && RepliesInOrder(queue, c') && ClientInStep(c');
    if !c.server.Ended? {
      LastSent(c.up, |c.sent| - |c.runs|, last);
    }
    assert FramesInOrder(c');
  }

  lemma LastSent(up: seq<Frame>, n: nat, last: Frame)
    requires n <= |up|
    ensures (up + [last])[..n] == up[..n] && (up + [last])[|up|] == last
  {
  }

  lemma OneMoreSent(up: seq<Frame>, waiting: seq<Step>, step: Step)
    requires |up| >= |waiting| && up[..|waiting|] == Requests(waiting)
    ensures |up| == |waiting| ==> (up + [Request(step)])[..|waiting| + 1] == Requests(waiting + [step])
  {
  }

  lemma OneFewerWaiting(up: seq<Frame>, waiting: seq<Step>)
    requires |up| >= |waiting| > 0 && up[..|waiting|] == Requests(waiting)
    ensures up[0] == Request(waiting[0]) && up[1..][..|waiting| - 1] == Requests(waiting[1..])
  {
    var left := up[1..][..|waiting| - 1];
    assert up[..|waiting|][0] == Requests(waiting)[0];
    forall k | 0 <= k < |left|
      ensures left[k] == Request(waiting[1..][k])
    {
      assert up[..|waiting|][k + 1] == Requests(waiting)[k + 1];
    }
  }

  lemma ReceiveKeeps(queue: seq<Job>, c: Channel)
    requires ChannelOk(queue, c) && c.client.Waiting? && c.down != []
    ensures ChannelOk(queue, c.(down := c.down[1..], got := c.got + [c.down[0]], client := Idle))
  {
    assert c.got + [c.down[0]] + c.down[1..] == c.got + c.down;
  }

  lemma ReadRequestKeeps(queue: seq<Job>, c: Channel, step: Step)
    requires ChannelOk(queue, c) && c.server.Reading? && c.up != [] && c.up[0] == Request(step)
    ensures ChannelOk(queue + [Job.Run(c.session, step, None)],
                      c.(up := c.up[1..], server := Awaiting(|queue|), runs := c.runs + [|queue|]))
  {
    assert |c.sent| > |c.runs|;
    OneFewerWaiting(c.up, c.sent[|c.runs|..]);
    assert c.sent[|c.runs|..][1..] == c.sent[|c.runs| + 1..];
  }

  /** Ending from any state, after possibly one unintelligible reply to a master that has gone. */
  lemma EndKeeps(queue: seq<Job>, c: Channel, up: seq<Frame>, down: seq<StepResult>)
    requires ChannelOk(queue, c) && !c.server.Ended?
    requires down == c.down || (down == c.down + [Unintelligible] && c.client.Gone? && c.server.Reading?)
    ensures ChannelOk(queue + [Job.Drop(c.session)],
                      c.(up := up, down := down, server := Ended, drops := c.drops + [|queue|]))
  {
    assert down != c.down ==> c.got + down == c.got + c.down + [Unintelligible];
  }

  lemma ReplyKeeps(queue: seq<Job>, c: Channel)
    requires ChannelOk(queue, c) && c.server.Awaiting? && c.server.job < |queue|
    requires queue[c.server.job].Run? && queue[c.server.job].answer.Some?
    ensures ChannelOk(queue, c.(down := c.down + [Executed(queue[c.server.job].answer.value)], server := Reading))
  {
    var result := Executed(queue[c.server.job].answer.value);
    assert c.got + (c.down + [result]) == c.got + c.down + [result];
  }

  lemma QueueExtends(s: State, e: Event, s': State)
    requires Ok(s) && Next(s, e, s')
    ensures Extends(s.queue, s'.queue)
    ensures s'.served <= |s'.queue|
    ensures forall j | 0 <= j < |s'.queue| && s'.queue[j].Run? :: s'.queue[j].answer.Some? <==> j < s'.served
  {
  }

  lemma EventKeeps(s: State, e: Event, s': State)
    requires Ok(s) && Next(s, e, s')
    ensures Ok(s')
  {
    QueueExtends(s, e, s');
    forall i | 0 <= i < |s'.channels|
      ensures ChannelOk(s'.queue, s'.channels[i])
    {
      if i < |s.channels| {
        if s'.channels[i] == s.channels[i] {
          ExtendsKeeps(s.queue, s'.queue, s.channels[i]);
        } else {
          TouchedChannelOk(s, e, s', i);
        }
      }
    }
  }

  lemma ReadKeeps(s: State, s': State, i: nat)
    requires Ok(s) && i < |s.channels| && Next(s, Read(i), s')
    ensures ChannelOk(s'.queue, s'.channels[i])
  {
    var c := s.channels[i];
    if c.up[0].Request? {
      ReadRequestKeeps(s.queue, c, c.up[0].step);
    } else {
      FarewellComesLast(s.queue, c);
      EndKeeps(s.queue, c, c.up[1..], c.down);
      if c.up[0].Garbled? {
        EndKeeps(s.queue, c, c.up[1..], c.down + [Unintelligible]);
      }
    }
  }

  predicate ByMaster(e: Event) {
    e.Send? || e.SendDone? || e.SendGarbled? || e.Receive? || e.Abandon?
  }

  lemma MasterKeeps(s: State, e: Event, s': State, i: nat)
    requires Ok(s) && ByMaster(e) && e.i == i && Next(s, e, s')
    ensures ChannelOk(s'.queue, s'.channels[i])
  {
    var c := s.channels[i];
    assert ChannelOk(s.queue, c) && s'.queue == s.queue;
    match e
    case Send(_, step) => SendStepKeeps(s.queue, c, step);
    case SendDone(_) => SendLastKeeps(s.queue, c, Finish);
    case SendGarbled(_) => SendLastKeeps(s.queue, c, Garbled);
    case Receive(_) => ReceiveKeeps(s.queue, c);
    case Abandon(_) =>
  }

  lemma ServerKeeps(s: State, e: Event, s': State, i: nat)
    requires Ok(s) && (e.ReadFails? || e.Reply? || e.ReplyFails?) && e.i == i && Next(s, e, s')
    ensures ChannelOk(s'.queue, s'.channels[i])
  {
    var c := s.channels[i];
    assert ChannelOk(s.queue, c);
    if e.Reply? {
      ReplyKeeps(s.queue, c);
    } else {
      EndKeeps(s.queue, c, c.up, c.down);
    }
  }

  lemma TouchedChannelOk(s: State, e: Event, s': State, i: nat)
    requires Ok(s) && Next(s, e, s') && i < |s.channels| && i < |s'.channels|
    requires s'.channels[i] != s.channels[i]
    ensures ChannelOk(s'.queue, s'.channels[i])
  {
    assert !e.Open? && !e.Serve? && !e.LoadShard? && e.i == i;
    if ByMaster(e) {
      MasterKeeps(s, e, s', i);
    } else if e.Read? {
      ReadKeeps(s, s', i);
    } else {
      ServerKeeps(s, e, s', i);
    }
  }

  lemma LeadingFramesAreSteps(frames: seq<Frame>, n: nat, steps: seq<Step>)
    requires n <= |frames| && frames[..n] == Requests(steps)
    ensures forall k | 0 <= k < n :: frames[k].Request?
  {
    forall k | 0 <= k < n
      ensures frames[k].Request?
    {
      assert frames[..n][k] == Requests(steps)[k];
    }
  }

  /** A frame that is not a step is only ever the last thing a departed master sent. */
  lemma FarewellComesLast(queue: seq<Job>, c: Channel)
    requires ChannelOk(queue, c) && c.server.Reading? && c.up != [] && !c.up[0].Request?
    ensures c.client.Gone? && |c.runs| == |c.sent|
  {
    LeadingFramesAreSteps(c.up, |c.sent| - |c.runs|, c.sent[|c.runs|..]);
  }

  // ---------- What it means for a session ----------

  ghost predicate IsRun(run: seq<State>, events: seq<Event>) {
    && |run| == |events| + 1
    && Init(run[0])
    && forall i, j | 0 <= i < |events| && j == i + 1 :: Next(run[i], events[i], run[j])
  }

  lemma {:induction false} RunsAreOk(run: seq<State>, events: seq<Event>, n: nat)
    requires IsRun(run, events) && n < |run|
    ensures Ok(run[n])
  {
    if n > 0 {
      RunsAreOk(run, events, n - 1);
      assert Next(run[n - 1], events[n - 1], run[n]);
      EventKeeps(run[n - 1], events[n - 1], run[n]);
    }
  }

  /**
   Over every run of any number of streams: the `k`-th step a master takes gets the executor's
   answer to that step, run for that stream's session, whether the answer is an output or a
   failure; a master between steps has an answer to each one and nothing is left on the wire for it.
   */
  lemma StepsGetTheirOwnAnswers(run: seq<State>, events: seq<Event>, n: nat, i: nat)
    requires IsRun(run, events) && n < |run| && i < |run[n].channels|
    ensures var s, c := run[n], run[n].channels[i];
      && |c.got| <= |c.runs| <= |c.sent|
      && (forall k | 0 <= k < |c.got| ::
            && c.runs[k] < s.served <= |s.queue|
            && c.got[k].Executed?
            && s.queue[c.runs[k]] == Job.Run(c.session, c.sent[k], Some(c.got[k].answer)))
      && (c.client.Idle? ==> |c.got| == |c.sent| && c.down == [])
  {
    RunsAreOk(run, events, n);
    var s, c := run[n], run[n].channels[i];
    forall k | 0 <= k < |c.got|
      ensures c.runs[k] < s.served <= |s.queue| && c.got[k].Executed?
      ensures s.queue[c.runs[k]] == Job.Run(c.session, c.sent[k], Some(c.got[k].answer))
    {
      assert (c.got + c.down)[k] == c.got[k];
      assert Answered(s.queue, c, k, c.got[k]);
    }
  }

  /** However a stream ends, it has queued exactly one drop, behind every one of its runs; before that, none. */
  lemma OneDropAfterAllRuns(run: seq<State>, events: seq<Event>, n: nat, i: nat)
    requires IsRun(run, events) && n < |run| && i < |run[n].channels|
    ensures var s, c := run[n], run[n].channels[i];
      if c.server.Ended? then
        && |c.drops| == 1 && c.drops[0] < |s.queue| && s.queue[c.drops[0]] == Job.Drop(c.session)
        && forall k | 0 <= k < |c.runs| :: c.runs[k] < c.drops[0]
      else c.drops == []
  {
    RunsAreOk(run, events, n);
  }
}
