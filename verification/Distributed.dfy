/**
 A whole decode over devices that others use too.  Every stage of the chain is a shard here or a
 stream to a device (`Stage` in crates/latticed/src/generate.rs); the outputs of one are the inputs of
 the next; and the token named by the last goes back to the first.
 */
module Distributed {
  import opened Wrappers
  import opened Vectors
  import opened Llama
  import opened Shard
  import opened Tiling
  import opened Generate
  import A = Activation
  import R = Remote

  /** What a stage was sent and what it answered, call by call, as long as all went well. */
  datatype Log = Log(sent: seq<Step>, got: seq<Payload>)

  /** A stage is a shard here, or the `i`-th stream of a device that has come as far as the last state of a run. */
  datatype Stage = Here | There(wording: R.Wording, run: seq<A.State>, events: seq<A.Event>, i: nat)

  ghost predicate Calm(queue: seq<A.Job>, c: A.Channel, w: Weights) {
    && c.runs != [] && c.runs[0] < |queue| && R.ValidQueue(queue)
    && R.HeldAt(queue, c.runs[0]).Some? && R.HeldAt(queue, c.runs[0]).value.w == w
    && forall j | 0 <= j < |queue| && c.runs[0] < j < c.runs[|c.runs| - 1] && j !in c.runs ::
         !R.Intrudes(R.Successes, queue[j], c.session, w)
  }

  /**
   The log is the stage's.  For a stream: when its first step is run the device holds the placement's
   layers, and from then on nobody else runs a step of its session there or loads other weights.
   */
  ghost predicate Keeps(stage: Stage, w: Weights, log: Log)
    requires w.Valid()
  {
    match stage
    case Here => Own(w, log)
    case There(wording, run, events, i) =>
      && A.IsRun(run, events) && R.ServedByThread(wording, run, events)
      && var s := run[|run| - 1];
         && i < |s.channels|
         && var c := s.channels[i];
            && c.session == SESSION && c.sent == log.sent && |c.got| == |log.got|
            && (forall t | 0 <= t < |log.got| :: c.got[t] == A.Executed(Success(log.got[t])))
            && Calm(s.queue, c, w)
  }

  /** The log is that of a shard of the stage's own. */
  ghost predicate Own(w: Weights, log: Log)
    requires w.Valid()
  {
    && |log.sent| == |log.got|
    && forall t | 0 <= t < |log.sent| ::
         Call(w, R.Alone(w, SESSION, log.sent[..t]), SESSION, log.sent[t]).0 == Success(log.got[t])
  }

  /** A prefill at 0 and then decodes. */
  ghost predicate DecodeLoop(steps: seq<Step>) {
    forall t | 0 <= t < |steps| :: if t == 0 then R.AtZero(steps[t]) else steps[t].Decode?
  }

  /** However many others use the device, the log is one a shard of the stage's own would have. */
  lemma KeepsItsOwn(stage: Stage, w: Weights, log: Log)
    requires w.Valid() && Keeps(stage, w, log) && |log.sent| == |log.got| && DecodeLoop(log.sent)
    ensures Own(w, log)
  {
    forall t | stage.There? && 0 <= t < |log.sent|
      ensures Call(w, R.Alone(w, SESSION, log.sent[..t]), SESSION, log.sent[t]).0 == Success(log.got[t])
    {
      StreamsAnswer(stage, w, log, t);
    }
  }

  lemma StreamsAnswer(stage: Stage, w: Weights, log: Log, t: nat)
    requires w.Valid() && stage.There? && Keeps(stage, w, log) && t < |log.sent| == |log.got| && DecodeLoop(log.sent)
    ensures Call(w, R.Alone(w, SESSION, log.sent[..t]), SESSION, log.sent[t]).0 == Success(log.got[t])
  {
    var n := |stage.run| - 1;
    var s, c := stage.run[n], stage.run[n].channels[stage.i];
    A.RunsAreOk(stage.run, stage.events, n);
    assert A.ChannelOk(s.queue, c);
    CalmIsItsOwn(s, c, w, t);
    R.SuccessesAreCalls(w, stage.wording, stage.run, stage.events, n, stage.i, 0, t);
    OwnSuccess(w, c.sent, t, stage.wording, log.got[t]);
  }

  lemma OwnSuccess(w: Weights, steps: seq<Step>, t: nat, wording: R.Wording, out: Payload)
    requires w.Valid() && t < |steps| && R.OwnAnswer(w, SESSION, steps[0..t + 1], wording) == Success(out)
    ensures Call(w, R.Alone(w, SESSION, steps[..t]), SESSION, steps[t]).0 == Success(out)
  {
    assert steps[0..t] == steps[..t];
    R.OwnAnswerIs(w, SESSION, steps, 0, t, R.Alone(w, SESSION, steps[..t]), wording);
  }

  lemma CalmIsItsOwn(s: A.State, c: A.Channel, w: Weights, t: nat)
    requires A.JobsInOrder(s.queue, c) && Calm(s.queue, c, w) && DecodeLoop(c.sent) && t < |c.runs|
    ensures R.OnItsOwn(R.Successes, s, c, 0, t, w)
  {
    assert t < |c.runs| - 1 ==> c.runs[t] < c.runs[|c.runs| - 1];
  }

  // ---------- One traversal ----------

  ghost predicate Placed(m: Model, places: seq<Placement>, logs: seq<Log>, calls: nat) {
    && |logs| == |places|
    && (forall i | 0 <= i < |places| :: places[i].first < places[i].last <= |m.layers|)
    && forall i | 0 <= i < |logs| :: |logs[i].sent| == |logs[i].got| == calls
  }

  /** What each stage is sent is what the stage before it answered. */
  ghost predicate Relayed(logs: seq<Log>, t: nat) {
    && (forall i | 0 <= i < |logs| :: t < |logs[i].sent| && t < |logs[i].got|)
    && forall i, j | 0 <= i < |logs| && j == i + 1 < |logs| ::
         logs[j].sent[t] == logs[i].sent[t].(input := logs[i].got[t])
  }

  /** Each stage is in a state in which it answers what the log says, and leaves the next. */
  ghost predicate Answering(m: Model, places: seq<Placement>, logs: seq<Log>, states: seq<State>, after: seq<State>,
                            t: nat)
    requires m.Valid() && |states| == |places| == |logs| == |after|
    requires forall i | 0 <= i < |places| :: places[i].first < places[i].last <= |m.layers|
  {
    && (forall i | 0 <= i < |places| :: |states[i].kv| == places[i].last - places[i].first)
    && (forall i | 0 <= i < |logs| :: t < |logs[i].sent| && t < |logs[i].got|)
    && forall i | 0 <= i < |places| ::
         Call(Slice(m, places[i].first, places[i].last), states[i], SESSION, logs[i].sent[t])
           == (Success(logs[i].got[t]), after[i])
  }

  lemma {:induction false} TraversalIsChain(m: Model, places: seq<Placement>, next: nat, logs: seq<Log>,
                                            states: seq<State>, after: seq<State>, t: nat)
    requires places != [] && Aligned(m, places, next, states) && |logs| == |places| == |after|
    requires forall i | 0 <= i < |places| :: places[i].first < places[i].last <= |m.layers|
    requires Relayed(logs, t) && Answering(m, places, logs, states, after, t)
    ensures ChainCall(m, places, next, states, SESSION, logs[0].sent[t]) == (Success(logs[|logs| - 1].got[t]), after)
  {
    AlignedRest(m, places, next, states);
    var step := logs[0].sent[t];
    assert Call(Slice(m, next, places[0].last), states[0], SESSION, step) == (Success(logs[0].got[t]), after[0]);
    if |places| == 1 {
      OneStage(m, places, next, states, SESSION, step);
      assert after == [after[0]];
    } else {
      assert logs[1].sent[t] == step.(input := logs[0].got[t]);
      TraversalIsChain(m, places[1..], places[0].last, logs[1..], states[1..], after[1..], t);
      FirstThenRest(m, places, next, states, SESSION, step);
      assert after == [after[0]] + after[1..];
    }
  }

  // ---------- All of them ----------

  /** What each stage holds after so many calls. */
  function StatesAfter(m: Model, places: seq<Placement>, logs: seq<Log>, t: nat): (states: seq<State>)
    requires m.Valid() && |logs| == |places|
    requires forall i | 0 <= i < |places| :: places[i].first < places[i].last <= |m.layers| && t <= |logs[i].sent|
    ensures |states| == |places|
    ensures forall i | 0 <= i < |places| :: |states[i].kv| == places[i].last - places[i].first
  {
    seq(|places|, i requires 0 <= i < |places| =>
      R.Alone(Slice(m, places[i].first, places[i].last), SESSION, logs[i].sent[..t]))
  }

  ghost predicate AllOwn(m: Model, places: seq<Placement>, logs: seq<Log>)
    requires m.Valid() && |logs| == |places|
    requires forall i | 0 <= i < |places| :: places[i].first < places[i].last <= |m.layers|
  {
    forall i | 0 <= i < |places| :: Own(Slice(m, places[i].first, places[i].last), logs[i])
  }

  lemma OwnAnswering(m: Model, places: seq<Placement>, logs: seq<Log>, calls: nat, t: nat, next: nat)
    requires m.Valid() && Placed(m, places, logs, calls) && AllOwn(m, places, logs) && next == t + 1 <= calls
    ensures Answering(m, places, logs, StatesAfter(m, places, logs, t), StatesAfter(m, places, logs, next), t)
  {
    var states, after := StatesAfter(m, places, logs, t), StatesAfter(m, places, logs, next);
    forall i | 0 <= i < |places|
      ensures Call(Slice(m, places[i].first, places[i].last), states[i], SESSION, logs[i].sent[t])
        == (Success(logs[i].got[t]), after[i])
    {
      var w := Slice(m, places[i].first, places[i].last);
      assert Own(w, logs[i]);
      var upTo := logs[i].sent[..next];
      assert upTo[..|upTo| - 1] == logs[i].sent[..t];
    }
  }

  lemma StartsSame(m: Model, places: seq<Placement>, logs: seq<Log>, calls: nat)
    requires m.Valid() && Tiles(places, |m.layers|) && Placed(m, places, logs, calls)
    ensures Same(StatesAfter(m, places, logs, 0), State(Cleared(|m.layers|), None))
  {
    assert StatesAfter(m, places, logs, 0) == NewlyOpened(places);
    JoinedCleared(m, places, 0, NewlyOpened(places));
  }

  /** The `t`-th traversal of the stages is the chain's `t`-th call. */
  lemma StagesAreChain(m: Model, places: seq<Placement>, logs: seq<Log>, calls: nat, t: nat, next: nat)
    requires m.Valid() && Tiles(places, |m.layers|) && Placed(m, places, logs, calls) && AllOwn(m, places, logs)
    requires places != [] && next == t + 1 <= calls && Relayed(logs, t)
    ensures Traverses(m, places, StatesAfter(m, places, logs, t), logs[0].sent[t], logs[|logs| - 1].got[t],
                      StatesAfter(m, places, logs, next))
  {
    OwnAnswering(m, places, logs, calls, t, next);
    TraversalIsChain(m, places, 0, logs, StatesAfter(m, places, logs, t), StatesAfter(m, places, logs, next), t);
  }

  // ---------- The decode ----------

  /**
   End to end: if every stage is a shard here or a stream to a device that holds its layers and runs
   nobody else's steps of the same session meanwhile, and a run gets all its answers, then what it
   says is what greedy decoding with the unsplit model says.
   */
  lemma AnsweredRunIsGreedy(m: Model, places: seq<Placement>, stages: seq<Stage>, logs: seq<Log>,
                            prompt: seq<nat>, out: seq<nat>)
    requires m.Speaks() && places != [] && Tiles(places, |m.layers|) && |stages| == |places|
    requires Placed(m, places, logs, |out|) && (forall t | 0 <= t < |out| :: Relayed(logs, t))
    requires forall i | 0 <= i < |places| :: Keeps(stages[i], Slice(m, places[i].first, places[i].last), logs[i])
    requires out != [] && Decodes(logs[0].sent, logs[|logs| - 1].got, prompt, out)
    ensures prompt != [] && Within(m.embed, prompt) && out == Greedy(m, prompt, |out|)
  {
    StagesKeepTheirOwn(m, places, stages, logs, prompt, out);
    var held := StagesTraverse(m, places, logs, |out|);
    AnsweredIsGreedy(m, places, held, logs[0].sent, logs[|logs| - 1].got, prompt, out, |out|);
    assert out[..|out|] == out;
  }

  lemma StagesTraverse(m: Model, places: seq<Placement>, logs: seq<Log>, calls: nat) returns (held: seq<seq<State>>)
    requires m.Valid() && places != [] && Tiles(places, |m.layers|) && Placed(m, places, logs, calls)
    requires AllOwn(m, places, logs) && (forall t | 0 <= t < calls :: Relayed(logs, t))
    ensures AllTraverse(m, places, held, logs[0].sent, logs[|logs| - 1].got)
    ensures Same(held[0], State(Cleared(|m.layers|), None))
  {
    held := seq(calls + 1, t requires 0 <= t <= calls && Placed(m, places, logs, calls) && m.Valid() =>
      StatesAfter(m, places, logs, t));
    forall t, next | 0 <= t < calls && next == t + 1
      ensures Traverses(m, places, held[t], logs[0].sent[t], logs[|logs| - 1].got[t], held[next])
    {
      StagesAreChain(m, places, logs, calls, t, next);
    }
    StartsSame(m, places, logs, calls);
  }

  lemma StagesKeepTheirOwn(m: Model, places: seq<Placement>, stages: seq<Stage>, logs: seq<Log>,
                           prompt: seq<nat>, out: seq<nat>)
    requires m.Valid() && places != [] && |stages| == |places|
    requires Placed(m, places, logs, |out|) && (forall t | 0 <= t < |out| :: Relayed(logs, t))
    requires forall i | 0 <= i < |places| :: Keeps(stages[i], Slice(m, places[i].first, places[i].last), logs[i])
    requires Decodes(logs[0].sent, logs[|logs| - 1].got, prompt, out)
    ensures AllOwn(m, places, logs)
  {
    forall i | 0 <= i < |places|
      ensures Own(Slice(m, places[i].first, places[i].last), logs[i])
    {
      LoopAllAlong(logs, prompt, out, i);
      KeepsItsOwn(stages[i], Slice(m, places[i].first, places[i].last), logs[i]);
    }
  }

  lemma {:induction false} LoopAllAlong(logs: seq<Log>, prompt: seq<nat>, out: seq<nat>, i: nat)
    requires i < |logs| && (forall j | 0 <= j < |logs| :: |logs[j].sent| == |logs[j].got| == |out|)
    requires Decodes(logs[0].sent, logs[|logs| - 1].got, prompt, out)
    requires forall t | 0 <= t < |out| :: Relayed(logs, t)
    ensures DecodeLoop(logs[i].sent)
  {
    if i > 0 {
      LoopAllAlong(logs, prompt, out, i - 1);
      forall t | 0 <= t < |out|
        ensures if t == 0 then R.AtZero(logs[i].sent[t]) else logs[i].sent[t].Decode?
      {
        assert Relayed(logs, t);
      }
    }
  }
}
