/**
 A remote stage, end to end: the master's steps cross a stream (`Activation`), the device's queue
 hands them to the thread that owns its shard (`ShardThread`), and the shard answers (`Shard`).
 Here the executor behind the streams is that thread, and what a master gets is put together, on a
 device that is sent any loads by anyone and that any number of streams share.
 */
module Remote {
  import opened Wrappers
  import opened Llama
  import opened Shard
  import A = Activation
  import T = ShardThread

  /** How a refusal is told to the master. */
  type Wording = T.Refusal -> string

  function ToJob(job: A.Job): T.Job {
    match job
    case Run(session, step, _) => T.Run(session, T.Work(step))
    case Drop(session) => T.Drop(session)
    case Load(weights) => T.Load(weights)
  }

  ghost predicate ValidQueue(queue: seq<A.Job>) {
    forall j | 0 <= j < |queue| :: ToJob(queue[j]).Valid()
  }

  /** What the thread is sent. */
  function JobsOf(queue: seq<A.Job>): (jobs: seq<T.Job>)
    requires ValidQueue(queue)
    ensures T.ValidJobs(jobs) && |jobs| == |queue|
  {
    seq(|queue|, j requires 0 <= j < |queue| => ToJob(queue[j]))
  }

  function Worded(reply: T.Reply, wording: Wording): A.Answer
    requires reply.Answer?
  {
    if reply.result.Success? then Success(reply.result.value) else Failure(wording(reply.result.error))
  }

  /** What the device holds when its thread gets to a place of the queue. */
  function HeldAt(queue: seq<A.Job>, place: nat): (held: Option<T.Held>)
    requires ValidQueue(queue) && place <= |queue|
    ensures held.Some? ==> held.value.Valid()
  {
    T.After(JobsOf(queue)[..place])
  }

  /** What the thread answers to a run. */
  function ThreadsAnswer(queue: seq<A.Job>, j: nat, wording: Wording): A.Answer
    requires ValidQueue(queue) && j < |queue| && queue[j].Run?
  {
    Worded(T.JobStep(HeldAt(queue, j), ToJob(queue[j])).1, wording)
  }

  /** Every run of the queue that has been served got the thread's answer. */
  ghost predicate ByThread(wording: Wording, s: A.State) {
    && ValidQueue(s.queue) && s.served <= |s.queue|
    && forall j | 0 <= j < s.served && s.queue[j].Run? :: s.queue[j].answer == Some(ThreadsAnswer(s.queue, j, wording))
  }

  /** If the event serves a run, it is with the thread's answer. */
  ghost predicate ServesRight(wording: Wording, s: A.State, e: A.Event) {
    && ValidQueue(s.queue)
    && (e.LoadShard? ==> T.Load(e.weights).Valid())
    && (e.Serve? && s.served < |s.queue| && s.queue[s.served].Run? ==>
          e.answer == ThreadsAnswer(s.queue, s.served, wording))
  }

  /** The events are those of a device whose executor is the thread. */
  ghost predicate ServedByThread(wording: Wording, run: seq<A.State>, events: seq<A.Event>)
    requires |run| == |events| + 1
  {
    forall n | 0 <= n < |events| :: ServesRight(wording, run[n], events[n])
  }

  /** A queue that has only been added to, or had answers filled in, is the same to the thread as far as it went. */
  lemma AnswerStays(queue: seq<A.Job>, queue': seq<A.Job>, j: nat, wording: Wording)
    requires ValidQueue(queue) && ValidQueue(queue')
    requires j < |queue| <= |queue'| && queue[j].Run? && queue'[j].Run?
    requires forall k | 0 <= k <= j :: ToJob(queue[k]) == ToJob(queue'[k])
    ensures ThreadsAnswer(queue', j, wording) == ThreadsAnswer(queue, j, wording)
  {
    assert JobsOf(queue)[..j] == JobsOf(queue')[..j];
  }

  /** No event changes what the thread makes of a job already queued. */
  lemma JobsStay(s: A.State, e: A.Event, s': A.State)
    requires A.Next(s, e, s') && ValidQueue(s.queue) && (e.LoadShard? ==> T.Load(e.weights).Valid())
    ensures |s.queue| <= |s'.queue| && ValidQueue(s'.queue)
    ensures forall j | 0 <= j < |s.queue| :: ToJob(s'.queue[j]) == ToJob(s.queue[j])
    ensures forall j | 0 <= j < s.served && j < |s.queue| :: s'.queue[j] == s.queue[j]
  {
    A.QueueGrows(s, e, s');
  }

  lemma ByThreadKept(wording: Wording, s: A.State, e: A.Event, s': A.State)
    requires ByThread(wording, s) && A.Next(s, e, s') && ServesRight(wording, s, e)
    ensures ByThread(wording, s')
  {
    JobsStay(s, e, s');
    forall j | 0 <= j < s'.served && s'.queue[j].Run?
      ensures s'.queue[j].answer == Some(ThreadsAnswer(s'.queue, j, wording))
    {
      AnswerStays(s.queue, s'.queue, j, wording);
    }
  }

  lemma {:induction false} RunsAreByThread(wording: Wording, run: seq<A.State>, events: seq<A.Event>, n: nat)
    requires A.IsRun(run, events) && ServedByThread(wording, run, events) && n < |run|
    ensures ByThread(wording, run[n])
  {
    if n > 0 {
      RunsAreByThread(wording, run, events, n - 1);
      assert A.Next(run[n - 1], events[n - 1], run[n]) && ServesRight(wording, run[n - 1], events[n - 1]);
      ByThreadKept(wording, run[n - 1], events[n - 1], run[n]);
    }
  }

  // ---------- A shard of one's own ----------

  /** What becomes of it after a sequence of steps. */
  function Alone(w: Weights, session: nat, steps: seq<Step>): (st: State)
    requires w.Valid()
    ensures |st.kv| == |w.layers|
  {
    if steps == [] then Opened(w) else Call(w, Alone(w, session, steps[..|steps| - 1]), session, steps[|steps| - 1]).1
  }

  function OwnReply(w: Weights, st: State, session: nat, step: Step): T.Reply
    requires w.Valid() && |st.kv| == |w.layers|
  {
    T.JobStep(Some(T.Held(w, st)), T.Run(session, T.Work(step))).1
  }

  /** What it answers to the last of a sequence of steps. */
  function OwnAnswer(w: Weights, session: nat, steps: seq<Step>, wording: Wording): A.Answer
    requires w.Valid() && steps != []
  {
    Worded(OwnReply(w, Alone(w, session, steps[..|steps| - 1]), session, steps[|steps| - 1]), wording)
  }

  // ---------- How far the device's shard is that shard ----------

  /**
   `Everything`: they answer alike, refusals included.  `Successes`: they are alike whenever it is
   the session's turn.
   */
  datatype Likeness = Everything | Successes

  ghost predicate Alike(like: Likeness, held: T.Held, w: Weights, own: State, session: nat) {
    && held.w == w
    && match like
       case Everything =>
         && (own.active.Some? ==> own.active.value == session)
         && (held.st == own || (held.st.active != Some(session) && own == Opened(w)))
       case Successes => held.st.active == Some(session) ==> held.st == own
  }

  /** Somebody else's job that clears a session's cache, adds to it, or gives the shard to another session. */
  predicate Disturbs(job: A.Job, session: nat) {
    match job
    case Run(other, step, _) => other == session || step.Prefill?
    case Drop(other) => other == session
    case Load(weights) => weights.Some?
  }

  /** What somebody else's job must not be, for the likeness to last. */
  ghost predicate Intrudes(like: Likeness, job: A.Job, session: nat, w: Weights) {
    match like
    case Everything => Disturbs(job, session)
    case Successes =>
      (match job
       case Run(other, _, _) => other == session
       case Drop(_) => false
       case Load(weights) => weights.Some? && weights.value != w)
  }

  predicate AtZero(step: Step) {
    step.Prefill? && step.pos == 0
  }

  lemma OthersStep(like: Likeness, held: T.Held, w: Weights, own: State, session: nat, job: A.Job)
    requires held.Valid() && |own.kv| == |w.layers| && ToJob(job).Valid()
    requires Alike(like, held, w, own, session) && !Intrudes(like, job, session, w)
    ensures var after := T.JobStep(Some(held), ToJob(job)).0;
      after.Some? && Alike(like, after.value, w, own, session)
  {
  }

  /** The device's shard will make of the session's next step what the other makes of it. */
  ghost predicate TakesTurn(like: Likeness, held: T.Held, w: Weights, own: State, session: nat, step: Step) {
    AtZero(step) || (
      && Alike(like, held, w, own, session)
      && (like.Successes? && step.Prefill? && own.active == Some(session) ==> held.st.active == Some(session)))
  }

  lemma OwnStep(like: Likeness, held: T.Held, w: Weights, own: State, session: nat, step: Step)
    requires held.Valid() && held.w == w && |own.kv| == |w.layers|
    requires TakesTurn(like, held, w, own, session, step)
    ensures var (after, reply) := T.JobStep(Some(held), T.Run(session, T.Work(step)));
      && after.Some? && Alike(like, after.value, w, Call(w, own, session, step).1, session)
      && reply.Answer?
      && (like.Everything? || reply.result.Success? ==> reply == OwnReply(w, own, session, step))
  {
  }

  // ---------- Up to a stream's turn ----------

  /** Its `h`-th run finds a shard with these weights, and clears it or finds nothing of its session in it. */
  ghost predicate Starts(s: A.State, c: A.Channel, h: nat, w: Weights) {
    && h < |c.runs| && h < |c.sent| && c.runs[h] < |s.queue| && ValidQueue(s.queue)
    && var held := HeldAt(s.queue, c.runs[h]);
       && held.Some? && held.value.w == w
       && (AtZero(c.sent[h]) || held.value.st.active != Some(c.session))
  }

  /** Nobody else's job between its `h`-th and its `k`-th run intrudes. */
  ghost predicate LeftAlone(like: Likeness, s: A.State, c: A.Channel, h: nat, k: nat, w: Weights) {
    h <= k < |c.runs| &&
    forall j | 0 <= j < |s.queue| && c.runs[h] < j < c.runs[k] && j !in c.runs ::
      !Intrudes(like, s.queue[j], c.session, w)
  }

  ghost predicate OnlyAtZero(steps: seq<Step>, from: nat, to: nat) {
    forall g | from < g <= to && g < |steps| && steps[g].Prefill? :: steps[g].pos == 0
  }

  /** What the last two lemmas ask of a stream. */
  ghost predicate OnItsOwn(like: Likeness, s: A.State, c: A.Channel, h: nat, k: nat, w: Weights) {
    Starts(s, c, h, w) && LeftAlone(like, s, c, h, k, w) && (like.Successes? ==> OnlyAtZero(c.sent, h, k))
  }

  lemma HeldNext(queue: seq<A.Job>, place: nat)
    requires ValidQueue(queue) && place < |queue|
    ensures HeldAt(queue, place + 1) == T.JobStep(HeldAt(queue, place), ToJob(queue[place])).0
  {
    var jobs := JobsOf(queue);
    assert jobs[..place + 1][..place] == jobs[..place];
  }

  /** When its `k`-th run comes, the device's shard is as good as one that got the stream's steps and nothing else. */
  lemma {:induction false} TurnComes(like: Likeness, s: A.State, c: A.Channel, h: nat, k: nat, w: Weights)
    returns (held: T.Held, own: State)
    requires A.JobsInOrder(s.queue, c) && OnItsOwn(like, s, c, h, k, w)
    ensures w.Valid() && HeldAt(s.queue, c.runs[k]) == Some(held) && held.w == w
    ensures own == Alone(w, c.session, c.sent[h..k])
    ensures TakesTurn(like, held, w, own, c.session, c.sent[k])
    decreases c.runs[k], 1
  {
    if k > h {
      held, own := AlikeAt(like, s, c, h, k, w, c.runs[k]);
    } else {
      assert c.sent[h..k] == [];
      held, own := HeldAt(s.queue, c.runs[h]).value, Opened(w);
    }
  }

  lemma {:induction false} AlikeAt(like: Likeness, s: A.State, c: A.Channel, h: nat, k: nat, w: Weights, place: nat)
    returns (held: T.Held, own: State)
    requires A.JobsInOrder(s.queue, c) && OnItsOwn(like, s, c, h, k, w) && h < k
    requires c.runs[k - 1] < place <= c.runs[k]
    ensures w.Valid() && HeldAt(s.queue, place) == Some(held)
    ensures own == Alone(w, c.session, c.sent[h..k])
    ensures Alike(like, held, w, own, c.session)
    decreases place, 0
  {
    var before, last := place - 1, k - 1;
    if before == c.runs[last] {
      OneFewer(like, s, c, h, k, w);
      held, own := TurnComes(like, s, c, h, last, w);
      AloneNext(w, c.session, c.sent, h, last, k);
      held, own := OwnRunPasses(like, s.queue, c.runs[last], place, held, w, own, c.session, c.sent[last]);
    } else {
      held, own := AlikeAt(like, s, c, h, k, w, before);
      NotItsOwn(like, s, c, h, k, w, before);
      held := OthersPass(like, s.queue, before, place, held, w, own, c.session);
    }
  }

  lemma AloneNext(w: Weights, session: nat, steps: seq<Step>, h: nat, k: nat, later: nat)
    requires w.Valid() && h <= k < later == k + 1 <= |steps|
    ensures Alone(w, session, steps[h..later]) == Call(w, Alone(w, session, steps[h..k]), session, steps[k]).1
  {
    var upTo := steps[h..later];
    assert |upTo| - 1 == k - h && upTo[k - h] == steps[k];
    assert upTo[..k - h] == steps[h..k];
  }

  lemma OneFewer(like: Likeness, s: A.State, c: A.Channel, h: nat, k: nat, w: Weights)
    requires A.JobsInOrder(s.queue, c) && OnItsOwn(like, s, c, h, k, w) && h < k
    ensures OnItsOwn(like, s, c, h, k - 1, w)
    ensures k - 1 < |c.sent| && c.runs[k - 1] < |s.queue|
    ensures ToJob(s.queue[c.runs[k - 1]]) == T.Run(c.session, T.Work(c.sent[k - 1]))
  {
    assert c.runs[k - 1] < c.runs[k];
  }

  /** Between two runs of a stream there is none of its own. */
  lemma NotItsOwn(like: Likeness, s: A.State, c: A.Channel, h: nat, k: nat, w: Weights, place: nat)
    requires A.JobsInOrder(s.queue, c) && OnItsOwn(like, s, c, h, k, w) && h < k
    requires c.runs[k - 1] < place < c.runs[k]
    ensures place < |s.queue| && !Intrudes(like, s.queue[place], c.session, w)
  {
    assert c.runs[h] <= c.runs[k - 1];
    assert place !in c.runs;
  }

  lemma OwnRunPasses(like: Likeness, queue: seq<A.Job>, place: nat, next: nat, held: T.Held, w: Weights,
                     own: State, session: nat, step: Step)
    returns (held': T.Held, own': State)
    requires ValidQueue(queue) && next == place + 1 <= |queue| && ToJob(queue[place]) == T.Run(session, T.Work(step))
    requires |own.kv| == |w.layers| && HeldAt(queue, place) == Some(held) && held.w == w
    requires TakesTurn(like, held, w, own, session, step)
    ensures HeldAt(queue, next) == Some(held') && own' == Call(w, own, session, step).1
    ensures Alike(like, held', w, own', session)
  {
    HeldNext(queue, place);
    OwnStep(like, held, w, own, session, step);
    held', own' := HeldAt(queue, next).value, Call(w, own, session, step).1;
  }

  lemma OthersPass(like: Likeness, queue: seq<A.Job>, place: nat, next: nat, held: T.Held, w: Weights,
                   own: State, session: nat)
    returns (held': T.Held)
    requires ValidQueue(queue) && next == place + 1 <= |queue| && !Intrudes(like, queue[place], session, w)
    requires |own.kv| == |w.layers| && HeldAt(queue, place) == Some(held) && Alike(like, held, w, own, session)
    ensures HeldAt(queue, next) == Some(held') && Alike(like, held', w, own, session)
  {
    HeldNext(queue, place);
    OthersStep(like, held, w, own, session, queue[place]);
    held' := HeldAt(queue, next).value;
  }

  /** Before anyone has run a step of a session, nothing of it is held. */
  lemma NothingOfIts(queue: seq<A.Job>, place: nat, session: nat)
    requires ValidQueue(queue) && place <= |queue| && HeldAt(queue, place).Some?
    requires forall j | 0 <= j < place && queue[j].Run? :: queue[j].session != session
    ensures HeldAt(queue, place).value.st.active != Some(session)
  {
    var before := JobsOf(queue)[..place];
    T.SessionsIsolated(before);
    var live := T.LiveOf(before);
    assert live.runs != [] ==> T.IsStep(before, live.runs[0]) && before[live.runs[0]] == ToJob(queue[live.runs[0]]);
  }

  // ---------- What a master gets ----------

  /** The `k`-th answer of a stream is the thread's to its `k`-th run. */
  lemma AnswerIsThreads(wording: Wording, s: A.State, c: A.Channel, k: nat)
    requires A.ChannelOk(s.queue, c) && ByThread(wording, s) && k < |c.got|
    requires forall j | 0 <= j < |s.queue| && s.queue[j].Run? :: s.queue[j].answer.Some? <==> j < s.served
    ensures k < |c.runs| && k < |c.sent| && c.runs[k] < |s.queue|
    ensures s.queue[c.runs[k]].Run? && ToJob(s.queue[c.runs[k]]) == T.Run(c.session, T.Work(c.sent[k]))
    ensures c.got[k] == A.Executed(Worded(T.JobStep(HeldAt(s.queue, c.runs[k]),
        T.Run(c.session, T.Work(c.sent[k]))).1, wording))
  {
    assert (c.got + c.down)[k] == c.got[k] && A.Answered(s.queue, c, k, c.got[k]);
  }

  lemma AnswersAreAlike(like: Likeness, wording: Wording, s: A.State, c: A.Channel, h: nat, k: nat, w: Weights)
    requires A.Ok(s) && A.ChannelOk(s.queue, c) && ByThread(wording, s)
    requires OnItsOwn(like, s, c, h, k, w) && k < |c.got|
    ensures w.Valid() && k < |c.sent| && c.got[k].Executed?
    ensures like.Everything? || c.got[k].answer.Success? ==>
      c.got[k].answer == OwnAnswer(w, c.session, c.sent[h..k + 1], wording)
  {
    AnswerIsThreads(wording, s, c, k);
    var held, own := TurnComes(like, s, c, h, k, w);
    OwnAnswerIs(w, c.session, c.sent, h, k, own, wording);
    TurnAnswers(like, held, w, own, c.session, c.sent[k], wording);
  }

  lemma OwnAnswerIs(w: Weights, session: nat, steps: seq<Step>, h: nat, k: nat, own: State, wording: Wording)
    requires w.Valid() && h <= k < |steps| && own == Alone(w, session, steps[h..k])
    ensures OwnAnswer(w, session, steps[h..k + 1], wording) == Worded(OwnReply(w, own, session, steps[k]), wording)
  {
    var upTo := steps[h..k + 1];
    assert |upTo| - 1 == k - h && upTo[k - h] == steps[k];
    assert upTo[..k - h] == steps[h..k];
  }

  lemma TurnAnswers(like: Likeness, held: T.Held, w: Weights, own: State, session: nat, step: Step, wording: Wording)
    requires held.Valid() && held.w == w && |own.kv| == |w.layers|
    requires TakesTurn(like, held, w, own, session, step)
    ensures var reply := T.JobStep(Some(held), T.Run(session, T.Work(step))).1;
      && reply.Answer?
      && (like.Everything? || Worded(reply, wording).Success? ==>
            Worded(reply, wording) == Worded(OwnReply(w, own, session, step), wording))
  {
    OwnStep(like, held, w, own, session, step);
  }

  /**
   Over every run of any number of streams and loads: if from a stream's `h`-th run on, which clears
   the shard or finds nothing of its session in it, nobody loads a shard, prefills, or sends or drops
   anything of its session, then the answers the master gets, failures included, are those of a shard
   of its own called with its steps in order.
   */
  lemma AnswersAreCalls(w: Weights, wording: Wording, run: seq<A.State>, events: seq<A.Event>,
                        n: nat, i: nat, h: nat, k: nat)
    requires A.IsRun(run, events) && ServedByThread(wording, run, events) && n < |run| && i < |run[n].channels|
    requires k < |run[n].channels[i].got| && OnItsOwn(Everything, run[n], run[n].channels[i], h, k, w)
    ensures var c := run[n].channels[i];
      && w.Valid() && k < |c.sent|
      && c.got[k] == A.Executed(OwnAnswer(w, c.session, c.sent[h..k + 1], wording))
  {
    A.RunsAreOk(run, events, n);
    RunsAreByThread(wording, run, events, n);
    AnswersAreAlike(Everything, wording, run[n], run[n].channels[i], h, k, w);
  }

  /**
   And whatever other sessions do, and whoever drops this one: as long as nobody else runs a step of
   the session or loads other weights, a master that prefills at position 0 only, as the decode loop
   does, gets from its stream a failure or the answer of a shard of its own.
   */
  lemma SuccessesAreCalls(w: Weights, wording: Wording, run: seq<A.State>, events: seq<A.Event>,
                          n: nat, i: nat, h: nat, k: nat)
    requires A.IsRun(run, events) && ServedByThread(wording, run, events) && n < |run| && i < |run[n].channels|
    requires k < |run[n].channels[i].got| && OnItsOwn(Successes, run[n], run[n].channels[i], h, k, w)
    ensures var c := run[n].channels[i];
      && w.Valid() && k < |c.sent| && c.got[k].Executed?
      && (c.got[k].answer.Success? ==>
            c.got[k].answer == OwnAnswer(w, c.session, c.sent[h..k + 1], wording))
  {
    A.RunsAreOk(run, events, n);
    RunsAreByThread(wording, run, events, n);
    AnswersAreAlike(Successes, wording, run[n], run[n].channels[i], h, k, w);
  }

  // ---------- When the cache is the stream's own ----------

  ghost predicate Disturbed(queue: seq<A.Job>, c: A.Channel, after: nat, before: nat) {
    exists j :: 0 <= j < |queue| && after < j < before && j !in c.runs && Disturbs(queue[j], c.session)
  }

  /** Its `h`-th run clears the shard, and none of the next up to the `k`-th does. */
  ghost predicate Clearing(c: A.Channel, h: nat, k: nat) {
    h < k < |c.runs| && k < |c.sent| && AtZero(c.sent[h]) && forall g | h < g < k :: !AtZero(c.sent[g])
  }

  /** What has made the cache, at every place of the queue from one on. */
  ghost predicate Evolves(queue: seq<A.Job>, lives: seq<T.Live>, from: nat) {
    && |lives| == |queue| + 1
    && forall place, next | from <= place < |queue| && next == place + 1 ::
         lives[next] == T.LiveNext(lives[place], ToJob(queue[place]), place)
  }

  /** Once somebody has had a part in the cache, or the stream's first run has none any more, so it stays. */
  predicate Foreign(live: T.Live, c: A.Channel, h: nat)
    requires h < |c.runs|
  {
    c.runs[h] !in live.runs || exists r :: r in live.runs && r !in c.runs
  }

  lemma StaysForeign(live: T.Live, job: T.Job, place: nat, c: A.Channel, h: nat)
    requires h < |c.runs| && c.runs[h] < place && Foreign(live, c, h)
    ensures Foreign(T.LiveNext(live, job, place), c, h)
  {
    var next := T.LiveNext(live, job, place);
    if c.runs[h] in live.runs && c.runs[h] in next.runs {
      var r :| r in live.runs && r !in c.runs;
      assert r in next.runs;
    }
  }

  lemma TurnsForeign(live: T.Live, job: A.Job, place: nat, c: A.Channel, h: nat, k: nat)
    requires h < k <= |c.runs| && c.runs[h] < place && place !in c.runs
    requires live == T.Live(Some(c.session), c.runs[h..k]) && Disturbs(job, c.session)
    ensures Foreign(T.LiveNext(live, ToJob(job), place), c, h)
  {
    var next := T.LiveNext(live, ToJob(job), place);
    if next.runs != [] {
      assert next.runs[|next.runs| - 1] == place;
    }
  }

  /** At a place behind `k - h` runs of the stream: they have made the cache exactly if nobody has disturbed them. */
  ghost predicate LivesAt(queue: seq<A.Job>, lives: seq<T.Live>, c: A.Channel, h: nat, k: nat, place: nat) {
    && h < k <= |c.runs| && place < |lives|
    && if Disturbed(queue, c, c.runs[h], place) then Foreign(lives[place], c, h)
       else lives[place] == T.Live(Some(c.session), c.runs[h..k])
  }

  lemma OthersJobLives(queue: seq<A.Job>, lives: seq<T.Live>, c: A.Channel, h: nat, k: nat, place: nat, next: nat)
    requires LivesAt(queue, lives, c, h, k, place) && Evolves(queue, lives, c.runs[h])
    requires c.runs[h] < place < next == place + 1 <= |queue| && place !in c.runs
    ensures LivesAt(queue, lives, c, h, k, next)
  {
    if Disturbed(queue, c, c.runs[h], place) {
      StaysForeign(lives[place], ToJob(queue[place]), place, c, h);
      assert Disturbed(queue, c, c.runs[h], next);
    } else if Disturbs(queue[place], c.session) {
      TurnsForeign(lives[place], queue[place], place, c, h, k);
      assert Disturbed(queue, c, c.runs[h], next);
    } else {
      assert !Disturbed(queue, c, c.runs[h], next);
    }
  }

  lemma OwnJobLives(queue: seq<A.Job>, lives: seq<T.Live>, c: A.Channel, h: nat, k: nat, later: nat, next: nat)
    requires h <= k < later == k + 1 <= |c.runs| && k < |c.sent| && Evolves(queue, lives, c.runs[h])
    requires c.runs[h] <= c.runs[k] < next == c.runs[k] + 1 <= |queue| && (h < k ==> c.runs[h] < c.runs[k])
    requires ToJob(queue[c.runs[k]]) == T.Run(c.session, T.Work(c.sent[k])) && (AtZero(c.sent[k]) <==> k == h)
    requires k > h ==> LivesAt(queue, lives, c, h, k, c.runs[k])
    ensures LivesAt(queue, lives, c, h, later, next)
  {
    var place := c.runs[k];
    if k > h && Disturbed(queue, c, c.runs[h], place) {
      StaysForeign(lives[place], ToJob(queue[place]), place, c, h);
      assert Disturbed(queue, c, c.runs[h], next);
    } else {
      assert !Disturbed(queue, c, c.runs[h], next);
      assert c.runs[h..later] == c.runs[h..k] + [place];
    }
  }

  /** Between two runs of the stream. */
  lemma {:induction false} LivesUntil(queue: seq<A.Job>, lives: seq<T.Live>, c: A.Channel, h: nat, k: nat, place: nat)
    requires A.JobsInOrder(queue, c) && Clearing(c, h, k) && Evolves(queue, lives, c.runs[h])
    requires c.runs[k - 1] < place <= c.runs[k]
    ensures LivesAt(queue, lives, c, h, k, place)
    decreases place
  {
    var before, last := place - 1, k - 1;
    assert c.runs[h] <= c.runs[last] && c.runs[k] < |queue|;
    if before > c.runs[last] {
      LivesUntil(queue, lives, c, h, k, before);
      OthersJobLives(queue, lives, c, h, k, before, place);
    } else {
      if last > h {
        LivesUntil(queue, lives, c, h, last, c.runs[last]);
      }
      OwnJobLives(queue, lives, c, h, last, k, place);
    }
  }

  /** The session and the runs that have made the cache, when the thread gets to a place of the queue. */
  function LiveAt(queue: seq<A.Job>, place: nat): T.Live
    requires ValidQueue(queue) && place <= |queue|
  {
    T.LiveOf(JobsOf(queue)[..place])
  }

  lemma LiveAtNext(queue: seq<A.Job>, place: nat, next: nat)
    requires ValidQueue(queue) && next == place + 1 <= |queue| && HeldAt(queue, place).Some?
    ensures HeldAt(queue, next).Some?
    ensures LiveAt(queue, next) == T.LiveNext(LiveAt(queue, place), ToJob(queue[place]), place)
  {
    HeldNext(queue, place);
    var jobs := JobsOf(queue);
    assert jobs[..next][..place] == jobs[..place];
  }

  lemma {:induction false} StaysHeld(queue: seq<A.Job>, from: nat, place: nat)
    requires ValidQueue(queue) && from <= place <= |queue| && HeldAt(queue, from).Some?
    ensures HeldAt(queue, place).Some?
  {
    if from < place {
      StaysHeld(queue, from, place - 1);
      LiveAtNext(queue, place - 1, place);
    }
  }

  lemma QueueEvolves(queue: seq<A.Job>, from: nat) returns (lives: seq<T.Live>)
    requires ValidQueue(queue) && from < |queue| && HeldAt(queue, from).Some?
    ensures Evolves(queue, lives, from) && forall place | 0 <= place <= |queue| :: lives[place] == LiveAt(queue, place)
  {
    lives := seq(|queue| + 1, place requires 0 <= place <= |queue| && ValidQueue(queue) => LiveAt(queue, place));
    forall place, next | from <= place < |queue| && next == place + 1
      ensures lives[next] == T.LiveNext(lives[place], ToJob(queue[place]), place)
    {
      StaysHeld(queue, from, place);
      LiveAtNext(queue, place, next);
    }
  }

  /**
   The exact condition.  The cache that a stream's `k`-th run meets was made by the stream's own runs
   since its last prefill at 0, all of them and nobody else's, if and only if in between nobody else
   ran or dropped anything of its session, prefilled, or loaded a shard.
   */
  lemma CacheIsItsOwnIff(wording: Wording, run: seq<A.State>, events: seq<A.Event>, n: nat, i: nat, h: nat, k: nat)
    requires A.IsRun(run, events) && ServedByThread(wording, run, events) && n < |run| && i < |run[n].channels|
    requires Clearing(run[n].channels[i], h, k)
    requires var queue, c := run[n].queue, run[n].channels[i];
      c.runs[h] < |queue| && ValidQueue(queue) ==> HeldAt(queue, c.runs[h]).Some?
    ensures var queue, c := run[n].queue, run[n].channels[i];
      && c.runs[k] < |queue| && ValidQueue(queue)
      && (LiveAt(queue, c.runs[k]) == T.Live(Some(c.session), c.runs[h..k]) <==>
            !Disturbed(queue, c, c.runs[h], c.runs[k]))
  {
    A.RunsAreOk(run, events, n);
    RunsAreByThread(wording, run, events, n);
    var queue, c := run[n].queue, run[n].channels[i];
    assert A.ChannelOk(queue, c);
    var lives := QueueEvolves(queue, c.runs[h]);
    LivesUntil(queue, lives, c, h, k, c.runs[k]);
    assert c.runs[h..k][0] == c.runs[h];
  }
}
