/**
 The decode loop over a chain of shards, crates/latticed/src/generate.rs.

 The reference is greedy decoding with the unsplit model: every token is chosen by running the
 whole model, with no cache, over the prompt and everything chosen so far.
 */
module Generate {
  import opened Wrappers
  import opened Integers
  import opened Vectors
  import Experts
  import opened Attention
  import opened Llama
  import opened Shard
  import ShardThread
  import opened Tiling

  const SESSION := 1

  // ---------- Sampling ----------

  /** Where `max_by` leaves off after `n` values: on the last of the largest. */
  function LastLargest(values: seq<real>, n: nat): (best: nat)
    requires 0 < n <= |values|
    ensures best < n
    ensures forall i | 0 <= i < n :: values[i] <= values[best] && (i > best ==> values[i] < values[best])
  {
    if n == 1 then 0
    else
      var before := LastLargest(values, n - 1);
      if values[n - 1] >= values[before] then n - 1 else before
  }

  function ArgMax(logits: Payload): Option<nat> {
    if logits.Logits? && logits.values != [] then Some(LastLargest(logits.values, |logits.values|)) else None
  }

  // ---------- The chain of stages ----------

  ghost predicate Aligned(m: Model, places: seq<Placement>, next: nat, states: seq<State>) {
    && m.Valid()
    && TilesFrom(places, next, |m.layers|)
    && |states| == |places|
    && forall i | 0 <= i < |places| :: places[i].first < places[i].last
        && |states[i].kv| == places[i].last - places[i].first
  }

  lemma AlignedRest(m: Model, places: seq<Placement>, next: nat, states: seq<State>)
    requires Aligned(m, places, next, states) && places != []
    ensures Aligned(m, places[1..], places[0].last, states[1..])
    ensures next == places[0].first < places[0].last <= |m.layers|
  {
    TilesEndAfter(places[1..], places[0].last, |m.layers|);
  }

  /** `Pipeline::run`: each stage takes what the last one returned; the first failure ends it. */
  function ChainCall(m: Model, places: seq<Placement>, next: nat, states: seq<State>, session: nat, step: Step)
    : (r: (Result<Payload, Error>, seq<State>))
    requires Aligned(m, places, next, states)
    ensures |r.1| == |states|
  {
    if places == [] then (Success(step.input), [])
    else
      AlignedRest(m, places, next, states);
      var (out, after) := Call(Slice(m, next, places[0].last), states[0], session, step);
      if out.Failure? then (out, [after] + states[1..])
      else
        var (end, rest) := ChainCall(m, places[1..], places[0].last, states[1..], session, step.(input := out.value));
        (end, [after] + rest)
  }

  /** The caches of the stages, end to end. */
  function Joined(states: seq<State>): seq<Cache> {
    if states == [] then [] else states[0].kv + Joined(states[1..])
  }

  lemma {:induction false} JoinedLength(m: Model, places: seq<Placement>, next: nat, states: seq<State>)
    requires Aligned(m, places, next, states) && next <= |m.layers|
    ensures |Joined(states)| == |m.layers| - next
  {
    if places != [] {
      AlignedRest(m, places, next, states);
      JoinedLength(m, places[1..], places[0].last, states[1..]);
    }
  }

  ghost predicate Same(states: seq<State>, whole: State) {
    && (forall i | 0 <= i < |states| :: states[i].active == whole.active)
    && Joined(states) == whole.kv
  }

  /**
   Splitting preserves meaning: a chain that tiles layers `next..` answers what one shard holding
   them all answers, and unless that is a failure their caches stay the same.
   */
  lemma {:induction false} ChainIsOneShard(m: Model, places: seq<Placement>, next: nat, states: seq<State>,
                                           whole: State, session: nat, step: Step)
    requires places != [] && Aligned(m, places, next, states) && next <= |m.layers|
    requires Same(states, whole)
    ensures |whole.kv| == |m.layers| - next
    ensures var (out, after) := ChainCall(m, places, next, states, session, step);
      var (out', after') := Call(Slice(m, next, |m.layers|), whole, session, step);
      && out == out'
      && (out.Success? ==> Same(after, after') && Aligned(m, places, next, after))
  {
    JoinedLength(m, places, next, states);
    AlignedRest(m, places, next, states);
    var mid, rest := places[0].last, places[1..];
    if rest == [] {
      assert mid == |m.layers|;
      OneStage(m, places, next, states, session, step);
    } else {
      var tail := TailOf(m, places, next, states, whole);
      CallSplits(m, next, mid, |m.layers|, states[0], tail, session, step);
      var (r1, t1) := Call(Slice(m, next, mid), states[0], session, step);
      if r1.Success? {
        var onward := step.(input := r1.value);
        ChainIsOneShard(m, rest, mid, states[1..], tail, session, onward);
        FirstThenRest(m, places, next, states, session, step);
        SameBehind(t1, ChainCall(m, rest, mid, states[1..], session, onward).1,
                   Call(Slice(m, mid, |m.layers|), tail, session, onward).1);
      }
    }
  }

  /** The part of the single shard that the stages behind the first stand for. */
  lemma TailOf(m: Model, places: seq<Placement>, next: nat, states: seq<State>, whole: State) returns (tail: State)
    requires |places| > 1 && Aligned(m, places, next, states) && next <= |m.layers| && Same(states, whole)
    ensures next == places[0].first < places[0].last < |m.layers|
    ensures Aligned(m, places[1..], places[0].last, states[1..])
    ensures whole == State(states[0].kv + tail.kv, states[0].active) && tail.active == whole.active
    ensures |states[0].kv| == places[0].last - next && |tail.kv| == |m.layers| - places[0].last
    ensures Same(states[1..], tail)
  {
    AlignedRest(m, places, next, states);
    AlignedRest(m, places[1..], places[0].last, states[1..]);
    JoinedLength(m, places[1..], places[0].last, states[1..]);
    tail := State(Joined(states[1..]), whole.active);
  }

  lemma OneStage(m: Model, places: seq<Placement>, next: nat, states: seq<State>, session: nat, step: Step)
    requires |places| == 1 && Aligned(m, places, next, states)
    requires places[0].first == next <= places[0].last == |m.layers|
    ensures var (out, after) := Call(Slice(m, next, |m.layers|), states[0], session, step);
      ChainCall(m, places, next, states, session, step) == (out, [after])
    ensures Joined(states) == states[0].kv
    ensures forall st: State :: Joined([st]) == st.kv
  {
    var after, none: seq<State> := Call(Slice(m, next, |m.layers|), states[0], session, step).1, [];
    assert [after] + none == [after] && states[1..] == none;
    forall st: State
      ensures Joined([st]) == st.kv
    {
      assert Joined([st]) == st.kv + Joined([st][1..]);
    }
  }

  /** What the chain leaves behind when its first stage succeeds. */
  lemma FirstThenRest(m: Model, places: seq<Placement>, next: nat, states: seq<State>, session: nat, step: Step)
    requires Aligned(m, places, next, states) && places != []
    requires next == places[0].first < places[0].last <= |m.layers|
    requires Aligned(m, places[1..], places[0].last, states[1..])
    ensures
      var (r1, t1) := Call(Slice(m, next, places[0].last), states[0], session, step);
      r1.Success? ==>
        var (r2, rest) := ChainCall(m, places[1..], places[0].last, states[1..], session, step.(input := r1.value));
        && ChainCall(m, places, next, states, session, step) == (r2, [t1] + rest)
        && Joined([t1] + rest) == t1.kv + Joined(rest)
        && (Aligned(m, places[1..], places[0].last, rest) ==> Aligned(m, places, next, [t1] + rest))
  {
    var (r1, t1) := Call(Slice(m, next, places[0].last), states[0], session, step);
    if r1.Success? {
      var (r2, rest) := ChainCall(m, places[1..], places[0].last, states[1..], session, step.(input := r1.value));
      assert ([t1] + rest)[1..] == rest;
    }
  }

  // ---------- Failures ----------

  lemma {:induction false} ChainKeepsAligned(m: Model, places: seq<Placement>, next: nat, states: seq<State>,
                                            session: nat, step: Step)
    requires Aligned(m, places, next, states)
    ensures Aligned(m, places, next, ChainCall(m, places, next, states, session, step).1)
  {
    if places != [] {
      AlignedRest(m, places, next, states);
      var (out, after) := Call(Slice(m, next, places[0].last), states[0], session, step);
      if out.Success? {
        ChainKeepsAligned(m, places[1..], places[0].last, states[1..], session, step.(input := out.value));
      }
    }
  }

  /** A prefill would find this shard as it leaves it: admission changes nothing. */
  predicate Untouched(st: State, session: nat, pos: nat) {
    st.active == Some(session) && (pos != 0 || st.kv == Cleared(|st.kv|))
  }

  /**
   The failing calls that leave a chain and a single shard alike.  A failure keeps a call from the
   later stages, so a prefill must have had nothing to clear in them.
   */
  predicate Harmless(states: seq<State>, session: nat, step: Step) {
    step.Decode? || forall i | 1 <= i < |states| :: Untouched(states[i], session, step.pos)
  }

  lemma {:induction false} JoinedIsCleared(states: seq<State>)
    ensures Joined(states) == Cleared(|Joined(states)|) <==>
        forall i | 0 <= i < |states| :: states[i].kv == Cleared(|states[i].kv|)
  {
    if states != [] {
      var first, rest := states[0].kv, states[1..];
      JoinedIsCleared(rest);
      assert Joined(states) == Cleared(|Joined(states)|) ==>
        first == Joined(states)[..|first|] && Joined(rest) == Joined(states)[|first|..];
    }
  }

  /** The first stage fails: the others are left as they were, where one shard may have cleared their layers. */
  lemma FirstStageFails(rest: seq<State>, whole: State, w: Weights, t1: State, session: nat, step: Step)
    requires Joined(rest) == whole.kv && |whole.kv| == |w.layers|
    requires forall i | 0 <= i < |rest| :: rest[i].active == whole.active
    requires t1.active == if step.Prefill? then Some(session) else whole.active
    ensures Same([t1] + rest, State(t1.kv + Entered(w, whole, session, step).kv, t1.active)) <==>
      step.Decode? || forall i | 0 <= i < |rest| :: Untouched(rest[i], session, step.pos)
  {
    var entered := Entered(w, whole, session, step);
    if step.Prefill? {
      SameBehind(t1, rest, entered.(active := t1.active));
      JoinedIsCleared(rest);
      EnteredSame(rest, whole, w, session, step);
    } else {
      SameBehind(t1, rest, entered);
    }
  }

  lemma EnteredSame(rest: seq<State>, whole: State, w: Weights, session: nat, step: Step)
    requires Joined(rest) == whole.kv && |whole.kv| == |w.layers| && step.Prefill?
    requires forall i | 0 <= i < |rest| :: rest[i].active == whole.active
    requires Joined(rest) == Cleared(|Joined(rest)|) <==>
      forall i | 0 <= i < |rest| :: rest[i].kv == Cleared(|rest[i].kv|)
    ensures Same(rest, State(Entered(w, whole, session, step).kv, Some(session))) <==>
      forall i | 0 <= i < |rest| :: Untouched(rest[i], session, step.pos)
  {
  }

  /** A clearing prefill that gets past the first stage gets past them all. */
  lemma FirstStageDecides(m: Model, next: nat, mid: nat, s1: State, s2: State, session: nat, step: Step)
    requires m.Valid() && next < mid < |m.layers|
    requires |s1.kv| == mid - next && |s2.kv| == |m.layers| - mid && s1.active == s2.active
    requires step.Prefill? && (s1.active != Some(session) || step.pos == 0)
    ensures var out := Call(Slice(m, next, mid), s1, session, step).0;
      out.Success? ==> Call(Slice(m, mid, |m.layers|), s2, session, step.(input := out.value)).0.Success?
  {
    var out := Call(Slice(m, next, mid), s1, session, step).0;
    ClearingPrefill(Slice(m, next, mid), s1, session, step.pos, step.input);
    if out.Success? {
      ClearingPrefill(Slice(m, mid, |m.layers|), s2, session, step.pos, out.value);
    }
  }

  /** What the first stage put in front does not decide whether the rest are the same. */
  lemma SameBehind(t1: State, rest: seq<State>, t2: State)
    requires t1.active == t2.active
    ensures Same([t1] + rest, State(t1.kv + t2.kv, t2.active)) <==> Same(rest, t2)
  {
    var after := [t1] + rest;
    assert after[1..] == rest && Joined(after) == t1.kv + Joined(rest);
    assert (t1.kv + Joined(rest))[|t1.kv|..] == Joined(rest) && (t1.kv + t2.kv)[|t1.kv|..] == t2.kv;
    assert forall i | 0 <= i < |rest| :: after[i + 1] == rest[i];
  }

  /**
   After a failed call the chain and the single shard are still the same if and only if it was a
   decode, or a prefill with nothing to clear behind the first stage.
   */
  lemma {:induction false} FailureKeepsSameIff(m: Model, places: seq<Placement>, next: nat, states: seq<State>,
                                               whole: State, session: nat, step: Step)
    requires places != [] && Aligned(m, places, next, states) && next <= |m.layers|
    requires Same(states, whole) && |whole.kv| == |m.layers| - next
    ensures var (out, after) := ChainCall(m, places, next, states, session, step);
      out.Failure? ==>
        (Same(after, Call(Slice(m, next, |m.layers|), whole, session, step).1) <==> Harmless(states, session, step))
    decreases |places|, 1
  {
    AlignedRest(m, places, next, states);
    var mid, rest := places[0].last, places[1..];
    if rest == [] {
      OneStage(m, places, next, states, session, step);
    } else {
      var tail := TailOf(m, places, next, states, whole);
      CallSplits(m, next, mid, |m.layers|, states[0], tail, session, step);
      var (r1, t1) := Call(Slice(m, next, mid), states[0], session, step);
      if r1.Failure? {
        FirstStageFails(states[1..], tail, Slice(m, mid, |m.layers|), t1, session, step);
      } else {
        LaterStageFails(m, places, next, states, tail, session, step);
      }
    }
  }

  /** The case of a later stage, given the same for the stages behind the first. */
  lemma {:induction false} LaterStageFails(m: Model, places: seq<Placement>, next: nat, states: seq<State>, tail: State,
                                          session: nat, step: Step)
    requires |places| > 1 && Aligned(m, places, next, states) && next <= |m.layers|
    requires Aligned(m, places[1..], places[0].last, states[1..])
        && next == places[0].first < places[0].last < |m.layers|
    requires Same(states[1..], tail) && states[0].active == tail.active && |tail.kv| == |m.layers| - places[0].last
    requires Call(Slice(m, next, places[0].last), states[0], session, step).0.Success?
    ensures var (out, after) := ChainCall(m, places, next, states, session, step);
      var whole := State(states[0].kv + tail.kv, tail.active);
      out.Failure? ==>
        (Same(after, Call(Slice(m, next, |m.layers|), whole, session, step).1) <==> Harmless(states, session, step))
    decreases |places|, 0
  {
    var mid, rest := places[0].last, places[1..];
    var (r1, t1) := Call(Slice(m, next, mid), states[0], session, step);
    var onward := step.(input := r1.value);
    CallSplits(m, next, mid, |m.layers|, states[0], tail, session, step);
    FirstThenRest(m, places, next, states, session, step);
    ChainIsOneShard(m, rest, mid, states[1..], tail, session, onward);
    var (out, after) := ChainCall(m, rest, mid, states[1..], session, onward);
    if out.Failure? {
      if step.Prefill? && (tail.active != Some(session) || step.pos == 0) {
        FirstStageDecides(m, next, mid, states[0], tail, session, step);
        assert false;
      }
      FailureKeepsSameIff(m, rest, mid, states[1..], tail, session, onward);
      SameBehind(t1, after, Call(Slice(m, mid, |m.layers|), tail, session, onward).1);
    }
  }

  // ---------- Histories ----------

  /** The answers to calls one after the other, failed ones included, and the states they leave. */
  function ChainHistory(m: Model, places: seq<Placement>, states: seq<State>, calls: seq<(nat, Step)>)
    : (r: (seq<Result<Payload, Error>>, seq<State>))
    requires Aligned(m, places, 0, states)
    ensures Aligned(m, places, 0, r.1)
  {
    if calls == [] then ([], states)
    else
      var last := calls[|calls| - 1];
      var (answers, before) := ChainHistory(m, places, states, calls[..|calls| - 1]);
      ChainKeepsAligned(m, places, 0, before, last.0, last.1);
      var (out, after) := ChainCall(m, places, 0, before, last.0, last.1);
      (answers + [out], after)
  }

  function WholeHistory(m: Model, whole: State, calls: seq<(nat, Step)>): (r: (seq<Result<Payload, Error>>, State))
    requires m.Valid() && |whole.kv| == |m.layers|
    ensures |r.1.kv| == |m.layers|
  {
    if calls == [] then ([], whole)
    else
      var last := calls[|calls| - 1];
      var (answers, before) := WholeHistory(m, whole, calls[..|calls| - 1]);
      var (out, after) := Call(Slice(m, 0, |m.layers|), before, last.0, last.1);
      (answers + [out], after)
  }

  /** Every failure of the history was a harmless one. */
  ghost predicate AllHarmless(m: Model, places: seq<Placement>, states: seq<State>, calls: seq<(nat, Step)>)
    requires Aligned(m, places, 0, states)
  {
    calls == [] || (
      var last, init := calls[|calls| - 1], calls[..|calls| - 1];
      var before := ChainHistory(m, places, states, init).1;
      && AllHarmless(m, places, states, init)
      && (ChainCall(m, places, 0, before, last.0, last.1).0.Success? || Harmless(before, last.0, last.1)))
  }

  /**
   Whatever prefills and decodes are sent, by whatever sessions: the chain gives one shard's answers
   up to and including the first failure that is not harmless, and until then the stages' caches,
   end to end, are the shard's.
   */
  lemma {:induction false} HistoriesAgree(m: Model, places: seq<Placement>, states: seq<State>, whole: State,
                                         calls: seq<(nat, Step)>)
    requires Aligned(m, places, 0, states) && places != [] && Same(states, whole)
    requires |whole.kv| == |m.layers|
    requires calls != [] ==> AllHarmless(m, places, states, calls[..|calls| - 1])
    ensures ChainHistory(m, places, states, calls).0 == WholeHistory(m, whole, calls).0
    ensures AllHarmless(m, places, states, calls) <==>
      Same(ChainHistory(m, places, states, calls).1, WholeHistory(m, whole, calls).1)
  {
    if calls != [] {
      var last, init := calls[|calls| - 1], calls[..|calls| - 1];
      HistoriesAgree(m, places, states, whole, init);
      var before, whole' := ChainHistory(m, places, states, init).1, WholeHistory(m, whole, init).1;
      ChainIsOneShard(m, places, 0, before, whole', last.0, last.1);
      FailureKeepsSameIff(m, places, 0, before, whole', last.0, last.1);
    }
  }

  /** Every stage would clear its cache for this prefill. */
  predicate AllClear(states: seq<State>, session: nat, step: Step) {
    step.Prefill? && forall i | 0 <= i < |states| :: states[i].active != Some(session) || step.pos == 0
  }

  /** What stages hold does not matter to a prefill that clears them. */
  lemma {:induction false} ClearingForgets(m: Model, places: seq<Placement>, next: nat, states: seq<State>,
                                          others: seq<State>, session: nat, step: Step)
    requires Aligned(m, places, next, states) && Aligned(m, places, next, others)
    requires AllClear(states, session, step) && AllClear(others, session, step)
    ensures var (out, after) := ChainCall(m, places, next, states, session, step);
      var (out', after') := ChainCall(m, places, next, others, session, step);
      out == out' && (out.Success? ==> after == after')
  {
    if places != [] {
      AlignedRest(m, places, next, states);
      AlignedRest(m, places, next, others);
      var out := Call(Slice(m, next, places[0].last), states[0], session, step).0;
      if out.Success? {
        ClearingForgets(m, places[1..], places[0].last, states[1..], others[1..], session, step.(input := out.value));
      }
    }
  }

  /** The states of newly opened stages. */
  function NewlyOpened(places: seq<Placement>): (states: seq<State>)
    requires forall i | 0 <= i < |places| :: places[i].first <= places[i].last
    ensures |states| == |places|
  {
    seq(|places|, i requires 0 <= i < |places| => State(Cleared(places[i].last - places[i].first), None))
  }

  /**
   A chain and a shard that have grown apart are the same again after a prefill that clears them all,
   such as one at position 0: its answer is the same whatever either held, and if it succeeds so are
   the caches.
   */
  lemma PrefillRecovers(m: Model, places: seq<Placement>, states: seq<State>, whole: State, session: nat, step: Step)
    requires Aligned(m, places, 0, states) && places != [] && |whole.kv| == |m.layers|
    requires AllClear(states, session, step) && AllClear([whole], session, step)
    ensures var (out, after) := ChainCall(m, places, 0, states, session, step);
      var (out', after') := Call(Slice(m, 0, |m.layers|), whole, session, step);
      && out == out'
      && (out.Success? ==> Same(after, after') && Aligned(m, places, 0, after))
  {
    var emptied, one := NewlyOpened(places), State(Cleared(|m.layers|), None);
    assert Aligned(m, places, 0, emptied);
    JoinedCleared(m, places, 0, emptied);
    ClearingForgets(m, places, 0, states, emptied, session, step);
    ChainIsOneShard(m, places, 0, emptied, one, session, step);
    assert whole.active != Some(session) || step.pos == 0 by {
      assert [whole][0] == whole;
    }
  }

  /**
   A failure that is not harmless: a prefill of a new session that is too long.  It clears the first
   stage and no other, and a decode after it is refused by the second stage, where one shard takes it.
   */
  lemma FailedPrefillDiverges(m: Model, places: seq<Placement>, states: seq<State>, whole: State, session: nat,
                              long: seq<nat>, token: nat)
    requires Aligned(m, places, 0, states) && |places| > 1 && Same(states, whole)
    requires whole.active != Some(session) && |long| > MAX_SEQ_LEN && Within(m.embed, [token])
    ensures |whole.kv| == |m.layers|
    ensures var calls := [(session, Step.Prefill(0, Tokens(long))), (session, Step.Decode(0, Tokens([token])))];
      var chain, one := ChainHistory(m, places, states, calls).0, WholeHistory(m, whole, calls).0;
      && |chain| == |one| == 2
      && chain[0] == one[0] == Failure(Engine)
      && chain[1] == Failure(UnknownSession) && one[1].Success?
  {
    JoinedLength(m, places, 0, states);
    var prefill, decode := Step.Prefill(0, Tokens(long)), Step.Decode(0, Tokens([token]));
    var calls := [(session, prefill), (session, decode)];
    var after, one := OverrunClears(m, places, states, whole, session, long);
    DecodeOnCleared(m, places, after, one, session, token);
    var none: seq<(nat, Step)> := [];
    OneMoreCall(m, places, states, whole, none, (session, prefill));
    assert none + [(session, prefill)] == [(session, prefill)];
    assert calls == [(session, prefill)] + [(session, decode)];
    OneMoreCall(m, places, states, whole, [(session, prefill)], (session, decode));
  }

  lemma OneMoreCall(m: Model, places: seq<Placement>, states: seq<State>, whole: State, calls: seq<(nat, Step)>,
                    call: (nat, Step))
    requires Aligned(m, places, 0, states) && |whole.kv| == |m.layers|
    ensures var (answers, before) := ChainHistory(m, places, states, calls);
      var (out, after) := ChainCall(m, places, 0, before, call.0, call.1);
      ChainHistory(m, places, states, calls + [call]) == (answers + [out], after)
    ensures var (answers, before) := WholeHistory(m, whole, calls);
      var (out, after) := Call(Slice(m, 0, |m.layers|), before, call.0, call.1);
      WholeHistory(m, whole, calls + [call]) == (answers + [out], after)
  {
    assert (calls + [call])[..|calls|] == calls;
  }

  lemma OverrunOnShard(m: Model, last: nat, st: State, session: nat, long: seq<nat>)
    requires m.Valid() && 0 < last <= |m.layers| && |st.kv| == last && |long| > MAX_SEQ_LEN
    ensures Call(Slice(m, 0, last), st, session, Step.Prefill(0, Tokens(long)))
      == (Failure(Engine), State(Cleared(last), Some(session)))
  {
    assert [None] + Cleared(last)[1..] == Cleared(last);
  }

  lemma OverrunClears(m: Model, places: seq<Placement>, states: seq<State>, whole: State, session: nat, long: seq<nat>)
    returns (after: seq<State>, one: State)
    requires Aligned(m, places, 0, states) && places != [] && |whole.kv| == |m.layers| && |long| > MAX_SEQ_LEN
    ensures places[0].last > 0
    ensures after == [State(Cleared(places[0].last), Some(session))] + states[1..]
    ensures one == State(Cleared(|m.layers|), Some(session))
    ensures ChainCall(m, places, 0, states, session, Step.Prefill(0, Tokens(long))) == (Failure(Engine), after)
    ensures Call(Slice(m, 0, |m.layers|), whole, session, Step.Prefill(0, Tokens(long))) == (Failure(Engine), one)
  {
    AlignedRest(m, places, 0, states);
    OverrunOnShard(m, places[0].last, states[0], session, long);
    OverrunOnShard(m, |m.layers|, whole, session, long);
    after := [State(Cleared(places[0].last), Some(session))] + states[1..];
    one := State(Cleared(|m.layers|), Some(session));
  }

  /** One token decodes on an emptied shard that holds the embedding. */
  lemma TokenOnCleared(m: Model, last: nat, session: nat, token: nat)
    requires m.Valid() && 0 < last <= |m.layers| && Within(m.embed, [token])
    ensures Call(Slice(m, 0, last), State(Cleared(last), Some(session)), session,
        Step.Decode(0, Tokens([token]))).0.Success?
  {
    var w := Slice(m, 0, last);
    PositionsAccepted(w.layers, Cleared(last), 0, w.Embedded(Tokens([token])), 0);
  }

  lemma DecodeOnCleared(m: Model, places: seq<Placement>, states: seq<State>, whole: State, session: nat, token: nat)
    requires Aligned(m, places, 0, states) && |places| > 1
    requires states[0] == State(Cleared(places[0].last), Some(session)) && states[1].active != Some(session)
    requires whole == State(Cleared(|m.layers|), Some(session)) && Within(m.embed, [token])
    ensures ChainCall(m, places, 0, states, session, Step.Decode(0, Tokens([token]))).0 == Failure(UnknownSession)
    ensures Call(Slice(m, 0, |m.layers|), whole, session, Step.Decode(0, Tokens([token]))).0.Success?
  {
    AlignedRest(m, places, 0, states);
    AlignedRest(m, places[1..], places[0].last, states[1..]);
    TokenOnCleared(m, places[0].last, session, token);
    TokenOnCleared(m, |m.layers|, session, token);
  }

  /** A chain fed tokens never miswires its own payloads, and what it yields in the end is logits. */
  lemma {:induction false} ChainIsWellWired(m: Model, places: seq<Placement>, next: nat, states: seq<State>,
                                           session: nat, step: Step)
    requires Aligned(m, places, next, states) && places != []
    requires if next == 0 then step.input.Tokens? else step.input.Hidden?
    ensures var out := ChainCall(m, places, next, states, session, step).0;
      out != Failure(WrongPayload) && (out.Success? ==> out.value.Logits?)
  {
    AlignedRest(m, places, next, states);
    var w := Slice(m, next, places[0].last);
    var (out, after) := Call(w, states[0], session, step);
    if out.Success? {
      if places[0].last == |m.layers| {
        TilesFromOrdered(places[1..], places[0].last, |m.layers|);
        assert places[1..] == [];
      } else {
        AlignedRest(m, places[1..], places[0].last, states[1..]);
        ChainIsWellWired(m, places[1..], places[0].last, states[1..], session, step.(input := out.value));
      }
    }
  }

  // ---------- The reference ----------

  /** The model's choice after a text, computed from scratch. */
  function NextToken(m: Model, text: seq<nat>): (next: nat)
    requires m.Speaks() && text != [] && Within(m.embed, text)
    ensures next < |m.embed|
  {
    var logits := m.head(LastRow(m, text));
    LastLargest(logits, |logits|)
  }

  function Greedy(m: Model, prompt: seq<nat>, n: nat): (out: seq<nat>)
    requires m.Speaks() && prompt != [] && Within(m.embed, prompt)
    ensures |out| == n && Within(m.embed, out)
  {
    if n == 0 then []
    else
      var before := Greedy(m, prompt, n - 1);
      before + [NextToken(m, prompt + before)]
  }

  /** What one shard holding the model has cached after a text. */
  function After(m: Model, text: seq<nat>): State
    requires m.Valid() && Within(m.embed, text)
  {
    State(CachesOf(m.layers, EmbedAll(m.embed, text)), Some(SESSION))
  }

  /** A shard holding everything, having cached a text, takes more of it and names the model's choice. */
  lemma WholeShardExact(m: Model, text: seq<nat>, more: seq<nat>, step: Step, st: State)
    requires m.Speaks() && m.layers != [] && Within(m.embed, text) && Within(m.embed, more)
    requires more != [] && step.input == Tokens(more) && step.pos == |text|
    requires |text| + |more| <= MAX_SEQ_LEN
    requires |st.kv| == |m.layers|
    requires if text == [] then step.Prefill? else step.Decode? && st == After(m, text)
    ensures var (out, after) := Call(Slice(m, 0, |m.layers|), st, SESSION, step);
      && out.Success? && ArgMax(out.value) == Some(NextToken(m, text + more))
      && after == After(m, text + more)
  {
    var start := if text == [] then Cleared(|m.layers|) else st.kv;
    CachesOfNothing(m.layers);
    WholeForward(m, text, more);
    assert text == [] ==> EmbedAll(m.embed, text) == [];
  }

  lemma WholeForward(m: Model, text: seq<nat>, more: seq<nat>)
    requires m.Speaks() && Within(m.embed, text) && Within(m.embed, more)
    requires more != [] && |text| + |more| <= MAX_SEQ_LEN
    ensures var w := Slice(m, 0, |m.layers|);
      var logits := m.head(LastRow(m, text + more));
      && logits != []
      && ForwardStep(w, CachesOf(m.layers, EmbedAll(m.embed, text)), Tokens(more), |text|)
        == (Some(Logits(logits)), CachesOf(m.layers, EmbedAll(m.embed, text + more)))
      && NextToken(m, text + more) == LastLargest(logits, |logits|)
  {
    var xs, ys := EmbedAll(m.embed, text), EmbedAll(m.embed, more);
    assert EmbedAll(m.embed, text + more) == xs + ys;
    assert m.layers[0..|m.layers|] == m.layers;
    StackExact(m.layers, xs, ys);
    var rows := StackMeaning(m.layers, xs + ys);
    assert rows[|xs|..][|ys| - 1] == rows[|rows| - 1];
  }

  /** The last hidden row of a text run from scratch. */
  function LastRow(m: Model, text: seq<nat>): Vec
    requires m.Valid() && text != [] && Within(m.embed, text)
  {
    var ys := StackMeaning(m.layers, EmbedAll(m.embed, text));
    ys[|ys| - 1]
  }

  /** An id without an embedding is refused at once; past the rotary tables the first layer fails. */
  lemma WholeShardOverruns(m: Model, more: seq<nat>, step: Step, st: State)
    requires m.Valid() && m.layers != [] && |st.kv| == |m.layers|
    requires step.input == Tokens(more)
    requires more == [] || !Within(m.embed, more) || step.pos + |more| > MAX_SEQ_LEN
    ensures Call(Slice(m, 0, |m.layers|), st, SESSION, step).0.Failure?
  {
  }

  // ---------- The pipeline object ----------

  ghost predicate ReadyAt(m: Model, places: seq<Placement>, states: seq<State>, i: nat) {
    && i <= |places| == |states|
    && Aligned(m, places[i..], if i == 0 then 0 else places[i - 1].last, states[i..])
  }

  /** Before stage `i` of a traversal: what comes of it once the remaining stages have run from here. */
  function Remaining(m: Model, places: seq<Placement>, states: seq<State>, i: nat, session: nat, step: Step)
    : (r: (Result<Payload, Error>, seq<State>))
    requires ReadyAt(m, places, states, i)
  {
    var next := if i == 0 then 0 else places[i - 1].last;
    var (out, rest) := ChainCall(m, places[i..], next, states[i..], session, step);
    (out, states[..i] + rest)
  }

  lemma RemainingStarts(m: Model, places: seq<Placement>, states: seq<State>, session: nat, step: Step)
    requires Aligned(m, places, 0, states)
    ensures ReadyAt(m, places, states, 0)
    ensures Remaining(m, places, states, 0, session, step) == ChainCall(m, places, 0, states, session, step)
  {
    assert places[0..] == places && states[0..] == states;
    var rest := ChainCall(m, places, 0, states, session, step).1;
    assert states[..0] + rest == rest;
  }

  lemma RemainingNext(m: Model, places: seq<Placement>, states: seq<State>, i: nat, session: nat, step: Step)
    requires i < |places| && ReadyAt(m, places, states, i)
    ensures 0 <= places[i].first < places[i].last <= |m.layers| && |states[i].kv| == places[i].last - places[i].first
    ensures var (out, after) := Call(Slice(m, places[i].first, places[i].last), states[i], session, step);
      var states' := states[i := after];
      && ReadyAt(m, places, states', i + 1)
      && Remaining(m, places, states, i, session, step) ==
           if out.Failure? then (out, states')
           else Remaining(m, places, states', i + 1, session, step.(input := out.value))
  {
    var next := if i == 0 then 0 else places[i - 1].last;
    AlignedRest(m, places[i..], next, states[i..]);
    var (out, after) := Call(Slice(m, places[i].first, places[i].last), states[i], session, step);
    assert places[i..][1..] == places[i + 1..];
    Spliced(states, i, after, []);
    if out.Success? {
      Spliced(states, i, after,
              ChainCall(m, places[i + 1..], places[i].last, states[i + 1..], session, step.(input := out.value)).1);
    }
  }

  lemma RemainingEnds(m: Model, places: seq<Placement>, states: seq<State>, session: nat, step: Step)
    requires ReadyAt(m, places, states, |places|)
    ensures Remaining(m, places, states, |places|, session, step) == (Success(step.input), states)
  {
    var none: seq<State> := [];
    assert states[..|places|] + none == states;
    assert places[|places|..] == [];
  }

  class Pipeline {
    const m: Model
    const places: seq<Placement>
    const stages: seq<CandleShard>
    ghost const models: set<ShardModel>

    /** The stages are distinct shards, each holding its placement's layers. */
    ghost predicate Wired() {
      && m.Valid()
      && Tiles(places, |m.layers|)
      && Holding(m, places, stages, models)
    }

    ghost predicate Valid()
      reads stages, models
    {
      Wired() && forall i | 0 <= i < |stages| :: stages[i].Valid()
    }

    ghost function States(): (states: seq<State>)
      requires Wired()
      reads stages, models
      ensures |states| == |places|
      ensures forall i | 0 <= i < |states| :: states[i] == stages[i].View()
    {
      seq(|stages|, i requires 0 <= i < |stages| && Wired() reads stages, models => stages[i].View())
    }

    /**
     A remote stage is a shard whose calls cross the wire unchanged.  One shard per placement is
     what the devices hold only when no device is named twice.
     */
    constructor (m: Model, places: seq<Placement>)
      requires m.Valid() && Tiles(places, |m.layers|) && PeersOnce(places)
      ensures Valid() && this.m == m && this.places == places
      ensures fresh(stages) && fresh(models)
      ensures forall i | 0 <= i < |places| :: States()[i] == State(Cleared(places[i].last - places[i].first), None)
    {
      TilesFromOrdered(places, 0, |m.layers|);
      var ready;
      ghost var held;
      ready, held := OpenAll(m, places);
      this.m, this.places, this.stages, this.models := m, places, ready, held;
    }

    lemma StatesAligned()
      requires Valid()
      ensures Aligned(m, places, 0, States())
    {
    }

    /** `Stage::run`. */
    method RunStage(i: nat, pos: nat, input: Payload, prefill: bool) returns (out: Result<Payload, Error>)
      requires Valid() && i < |stages|
      modifies stages[i], stages[i].model
      ensures Valid()
      ensures var (r, after) := Call(Slice(m, places[i].first, places[i].last), old(States())[i], SESSION,
          StepOf(pos, input, prefill));
        out == r && States() == old(States())[i := after]
    {
      if prefill {
        out := stages[i].Prefill(SESSION, pos, input);
      } else {
        out := stages[i].Decode(SESSION, pos, input);
      }
    }

    /** One traversal of the chain. */
    method Run(pos: nat, input: Payload, prefill: bool) returns (r: Result<Payload, Error>)
      requires Valid()
      modifies stages, models
      ensures Valid()
      ensures Aligned(m, places, 0, old(States()))
      ensures (r, States()) == ChainCall(m, places, 0, old(States()), SESSION, StepOf(pos, input, prefill))
    {
      var payload := input;
      StatesAligned();
      ghost var states := States();
      ghost var whole := ChainCall(m, places, 0, states, SESSION, StepOf(pos, input, prefill));
      RemainingStarts(m, places, states, SESSION, StepOf(pos, input, prefill));
      for i := 0 to |stages|
        invariant Valid() && States() == states
        invariant ReadyAt(m, places, states, i)
        invariant Remaining(m, places, states, i, SESSION, StepOf(pos, payload, prefill)) == whole
      {
        RemainingNext(m, places, states, i, SESSION, StepOf(pos, payload, prefill));
        var out := RunStage(i, pos, payload, prefill);
        states := States();
        if out.Failure? {
          return out;
        }
        payload := out.value;
      }
      RemainingEnds(m, places, states, SESSION, StepOf(pos, payload, prefill));
      r := Success(payload);
    }
  }

  function StepOf(pos: nat, input: Payload, prefill: bool): Step {
    if prefill then Step.Prefill(pos, input) else Step.Decode(pos, input)
  }

  ghost predicate Holding(m: Model, places: seq<Placement>, stages: seq<CandleShard>, models: set<ShardModel>) {
    && |stages| == |places|
    && (forall i | 0 <= i < |stages| :: places[i].first < places[i].last <= |m.layers|)
    && (forall i | 0 <= i < |stages| ::
          stages[i].model in models && stages[i].model.weights == Slice(m, places[i].first, places[i].last))
    && forall i, j | 0 <= i < j < |stages| :: stages[i] != stages[j] && stages[i].model != stages[j].model
  }

  /** The loads a device is sent for a list of placements, in their order. */
  function LoadsOn(m: Model, places: seq<Placement>, host: Host): (jobs: seq<ShardThread.Job>)
    requires m.Valid() && forall i | 0 <= i < |places| :: places[i].first <= places[i].last <= |m.layers|
    ensures ShardThread.ValidJobs(jobs)
  {
    if places == [] then []
    else
      var last := places[|places| - 1];
      LoadsOn(m, places[..|places| - 1], host)
      + if last.host == host then [ShardThread.Load(Some(Slice(m, last.first, last.last)))] else []
  }

  /** After them its thread holds one shard, the last one it was sent: the one `Tiling.Executed` says it runs. */
  lemma {:induction false} NodeKeepsLastLoad(m: Model, places: seq<Placement>, host: Host)
    requires m.Valid() && forall i | 0 <= i < |places| :: places[i].first <= places[i].last <= |m.layers|
    ensures var k := LastOn(places, host);
      ShardThread.After(LoadsOn(m, places, host)) ==
        if k < 0 then None
        else
          var w := Slice(m, places[k].first, places[k].last);
          Some(ShardThread.Held(w, Opened(w)))
  {
    if places != [] {
      var init, last := places[..|places| - 1], places[|places| - 1];
      NodeKeepsLastLoad(m, init, host);
      var jobs := LoadsOn(m, places, host);
      if last.host == host {
        assert jobs[..|jobs| - 1] == LoadsOn(m, init, host);
        assert jobs[|jobs| - 1] == ShardThread.Load(Some(Slice(m, last.first, last.last)));
      } else {
        assert jobs == LoadsOn(m, init, host);
      }
    }
  }

  // ---------- One session number for every master ----------

  /** What a device holding the whole model is sent when two masters use it at once: every run is session 1. */
  function TwoMasters(m: Model, mine: seq<nat>, theirs: seq<nat>, token: nat): (jobs: seq<ShardThread.Job>)
    requires m.Valid()
    ensures ShardThread.ValidJobs(jobs) && |jobs| == 4
  {
    [ShardThread.Load(Some(Slice(m, 0, |m.layers|))),
     ShardThread.Run(SESSION, ShardThread.Work(Step.Prefill(0, Tokens(mine)))),
     ShardThread.Run(SESSION, ShardThread.Work(Step.Prefill(0, Tokens(theirs)))),
     ShardThread.Run(SESSION, ShardThread.Work(Step.Decode(|mine|, Tokens([token]))))]
  }

  /**
   The second prefill takes the session over without changing its number, so the first master's next
   decode is not refused: it names the choice after the other text, which is right if and only if the
   model would have chosen the same after both.
   */
  lemma SharedSessionAnswersOther(m: Model, mine: seq<nat>, theirs: seq<nat>, token: nat)
    requires m.Speaks() && m.layers != [] && Within(m.embed, mine) && Within(m.embed, theirs) && token < |m.embed|
    requires mine != [] && |mine| == |theirs| < MAX_SEQ_LEN
    ensures var reply := ShardThread.ReplyTo(TwoMasters(m, mine, theirs, token), 3);
      && reply.Answer? && reply.result.Success?
      && ArgMax(reply.result.value) == Some(NextToken(m, theirs + [token]))
  {
    var w, jobs := Slice(m, 0, |m.layers|), TwoMasters(m, mine, theirs, token);
    assert jobs[..3] == jobs[..2] + [jobs[2]] && jobs[..2] == jobs[..1] + [jobs[1]] && jobs[..1] == [jobs[0]];
    var loaded := Opened(w);
    var ours := Call(w, loaded, SESSION, Step.Prefill(0, Tokens(mine))).1;
    assert [] + theirs == theirs;
    WholeShardExact(m, [], theirs, Step.Prefill(0, Tokens(theirs)), ours);
    WholeShardExact(m, theirs, [token], Step.Decode(|mine|, Tokens([token])), After(m, theirs));
    HistoryOfTwo(m, mine, theirs, token);
  }

  /**
   And a model that would not have: two tokens, embedded as 0 and 1, one layer that averages what it
   sees, and a head that says whether the last row is above 0.
   */
  lemma SharedSessionMisleads() returns (m: Model)
    ensures m.Speaks() && |m.layers| == 1 && |m.embed| == 2
    ensures ArgMaxAfterTakeover(m, [0], [1], 0) == Some(1) && NextToken(m, [0] + [0]) == 0
  {
    m := Averaging();
    SharedSessionAnswersOther(m, [0], [1], 0);
    AveragingNames(0);
    AveragingNames(1);
  }

  /** What the first master's decode names in the end. */
  function ArgMaxAfterTakeover(m: Model, mine: seq<nat>, theirs: seq<nat>, token: nat): Option<nat>
    requires m.Valid()
  {
    var reply := ShardThread.ReplyTo(TwoMasters(m, mine, theirs, token), 3);
    if reply.Answer? && reply.result.Success? then ArgMax(reply.result.value) else None
  }

  function Averaging(): Model {
    Model([[0.0], [1.0]],
          [Layer(1, 1, (v, _) => v, h => h, v => v, v => v, v => v, v => v, v => v, (v, _) => v,
                 (_, _) => 1.0, v => v, Experts.Dense(_ => [0.0]))],
          v => if At(v, 0) > 0.0 then [0.0, 1.0] else [1.0, 0.0])
  }

  /** Its layer averages two entries. */
  lemma AveragingAttends(q: Vec, x: real)
    ensures var l := Averaging().layers[0];
      Attend(l, q, [Entry([x], [x]), Entry([0.0], [0.0])]) == [0.5 * x]
  {
    var l, kv := Averaging().layers[0], [Entry([x], [x]), Entry([0.0], [0.0])];
    assert kv[..1] == [kv[0]] && kv[..1][..0] == [];
    assert PlainTotal(l, 0, q, kv[..1]) == 1.0 && PlainTotal(l, 0, q, kv) == 2.0;
    assert PlainSum(l, 0, q, kv[..1][..0]) == [0.0];
    assert PlainSum(l, 0, q, kv[..1]) == [x] && PlainSum(l, 0, q, kv) == [x];
    assert Head(l, 0, q, kv) == [0.5 * x];
    var heads := Heads(l, q, kv);
    assert heads == [[0.5 * x]] && heads[..0] == [] && Flat(heads[..0]) + heads[0] == heads[0];
  }

  /** Behind token `t`, token 0 is followed by `t`. */
  lemma AveragingNames(t: nat)
    requires t < 2
    ensures Averaging().Speaks() && NextToken(Averaging(), [t] + [0]) == t
  {
    var m, text, x := Averaging(), [t] + [0], t as real;
    var l, xs := m.layers[0], EmbedAll(m.embed, text);
    assert xs == [[x], [0.0]];
    assert Entries(l, xs[..2], 0) == [Entry([x], [x]), Entry([0.0], [0.0])];
    AveragingAttends(Query(l, xs[1], 1), x);
    assert RowMeaning(l, xs, 1) == [0.5 * x];
    assert StackMeaning(m.layers, xs) == LayerMeaning(l, xs);
    assert LastRow(m, text) == [0.5 * x];
  }

  /** The state the first master's decode meets. */
  lemma HistoryOfTwo(m: Model, mine: seq<nat>, theirs: seq<nat>, token: nat)
    requires m.Valid()
    ensures var w := Slice(m, 0, |m.layers|);
      var ours := Call(w, Opened(w), SESSION, Step.Prefill(0, Tokens(mine))).1;
      var over := Call(w, ours, SESSION, Step.Prefill(0, Tokens(theirs))).1;
      ShardThread.After(TwoMasters(m, mine, theirs, token)[..3]) == Some(ShardThread.Held(w, over))
  {
    var w, jobs := Slice(m, 0, |m.layers|), TwoMasters(m, mine, theirs, token);
    var first, second := Step.Prefill(0, Tokens(mine)), Step.Prefill(0, Tokens(theirs));
    var ours := Call(w, Opened(w), SESSION, first).1;
    assert jobs[..1][..0] == [] && jobs[..1][0] == jobs[0];
    assert ShardThread.After(jobs[..1]) == Some(ShardThread.Held(w, Opened(w)));
    ShardThread.AfterRun(jobs[..1], jobs[..2], ShardThread.Held(w, Opened(w)), SESSION, first);
    ShardThread.AfterRun(jobs[..2], jobs[..3], ShardThread.Held(w, ours), SESSION, second);
  }

  /** One stage more. */
  lemma HoldingNext(m: Model, places: seq<Placement>, n: nat, stages: seq<CandleShard>, models: set<ShardModel>,
                    shard: CandleShard)
    requires n < |places| && places[n].first < places[n].last <= |m.layers|
    requires Holding(m, places[..n], stages, models) && shard.model !in models && shard !in stages
    requires shard.model.weights == Slice(m, places[n].first, places[n].last)
    ensures Holding(m, places[..n + 1], stages + [shard], models + {shard.model})
  {
    var more := stages + [shard];
    assert forall i | 0 <= i < n :: more[i] == stages[i] && places[..n + 1][i] == places[..n][i];
  }

  method OpenAll(m: Model, places: seq<Placement>) returns (ready: seq<CandleShard>, ghost held: set<ShardModel>)
    requires m.Valid()
    requires forall i | 0 <= i < |places| :: places[i].first < places[i].last <= |m.layers|
    ensures fresh(ready) && fresh(held)
    ensures Holding(m, places, ready, held)
    ensures forall i | 0 <= i < |places| ::
      ready[i].Valid() && ready[i].View() == State(Cleared(places[i].last - places[i].first), None)
  {
    ready, held := [], {};
    for n := 0 to |places|
      invariant fresh(ready) && fresh(held)
      invariant Holding(m, places[..n], ready, held)
      invariant forall i | 0 <= i < n ::
        ready[i].Valid() && ready[i].View() == State(Cleared(places[i].last - places[i].first), None)
    {
      var shard := new CandleShard(Slice(m, places[n].first, places[n].last));
      HoldingNext(m, places, n, ready, held, shard);
      ready := ready + [shard];
      held := held + {shard.model};
    }
  }

  // ---------- The decode loop ----------

  lemma {:induction false} JoinedCleared(m: Model, places: seq<Placement>, next: nat, states: seq<State>)
    requires Aligned(m, places, next, states) && next <= |m.layers|
    requires forall i | 0 <= i < |places| :: states[i].kv == Cleared(places[i].last - places[i].first)
    ensures Joined(states) == Cleared(|m.layers| - next)
  {
    if places != [] {
      AlignedRest(m, places, next, states);
      JoinedCleared(m, places[1..], places[0].last, states[1..]);
    }
  }

  /** One traversal of a chain whose caches hold a text: it takes more of it and names the model's choice. */
  lemma ChainExact(m: Model, places: seq<Placement>, states: seq<State>, st: State, text: seq<nat>, more: seq<nat>,
                   step: Step)
    requires Aligned(m, places, 0, states) && m.Speaks() && places != []
    requires Same(states, st) && Within(m.embed, text)
    requires step.input == Tokens(more) && step.pos == |text| && more != []
    requires if text == [] then step.Prefill? else step.Decode? && st == After(m, text)
    ensures var (out, after) := ChainCall(m, places, 0, states, SESSION, step);
      && (out.Success? <==> Within(m.embed, more) && |text| + |more| <= MAX_SEQ_LEN)
      && (out.Success? ==> ArgMax(out.value) == Some(NextToken(m, text + more)) && Same(after, After(m, text + more)))
  {
    AlignedRest(m, places, 0, states);
    ChainIsOneShard(m, places, 0, states, st, SESSION, step);
    if Within(m.embed, more) && |text| + |more| <= MAX_SEQ_LEN {
      WholeShardExact(m, text, more, step, st);
    } else {
      WholeShardOverruns(m, more, step, st);
    }
  }

  lemma EmptyPromptFails(m: Model, places: seq<Placement>, states: seq<State>, st: State, step: Step)
    requires Aligned(m, places, 0, states) && places != [] && Same(states, st)
    requires step.input == Tokens([])
    ensures ChainCall(m, places, 0, states, SESSION, step).0.Failure?
  {
    AlignedRest(m, places, 0, states);
    ChainIsOneShard(m, places, 0, states, st, SESSION, step);
    WholeShardOverruns(m, [], step, st);
  }

  lemma GreedyExtends(m: Model, prompt: seq<nat>, n: nat)
    requires m.Speaks() && prompt != [] && Within(m.embed, prompt)
    ensures Greedy(m, prompt, n + 1) == Greedy(m, prompt, n) + [NextToken(m, prompt + Greedy(m, prompt, n))]
  {
  }

  datatype RunError = BadTiling(tiling: TilingError) | NotLoaded(place: nat) | ShardFailed(error: Error) | StreamBroken

  /** The prefill and the choice after it. */
  method FirstToken(pipeline: Pipeline, prompt: seq<nat>) returns (r: Result<nat, Error>)
    requires pipeline.Valid() && pipeline.places != [] && pipeline.m.Speaks()
    requires Same(pipeline.States(), State(Cleared(|pipeline.m.layers|), None))
    modifies pipeline.stages, pipeline.models
    ensures pipeline.Valid()
    ensures r.Success? <==> prompt != [] && Within(pipeline.m.embed, prompt) && |prompt| <= MAX_SEQ_LEN
    ensures r.Success? ==> r.value == NextToken(pipeline.m, prompt)
    ensures r.Success? ==> Same(pipeline.States(), After(pipeline.m, prompt))
  {
    ghost var m, states := pipeline.m, pipeline.States();
    ghost var fresh' := State(Cleared(|m.layers|), None);
    pipeline.StatesAligned();
    if prompt == [] {
      EmptyPromptFails(m, pipeline.places, states, fresh', StepOf(0, Tokens(prompt), true));
    } else {
      assert [] + prompt == prompt;
      ChainExact(m, pipeline.places, states, fresh', [], prompt, StepOf(0, Tokens(prompt), true));
    }
    var logits := pipeline.Run(0, Tokens(prompt), true);
    r := if logits.Failure? then Failure(logits.error) else Success(ArgMax(logits.value).value);
  }

  /** One decode: the position it is sent at is the length of what is cached, which the engine does not check. */
  method NextOf(pipeline: Pipeline, ghost text: seq<nat>, token: nat, pos: nat) returns (r: Result<nat, Error>)
    requires pipeline.Valid() && pipeline.places != [] && pipeline.m.Speaks()
    requires text != [] && pos == |text| && Within(pipeline.m.embed, text) && token < |pipeline.m.embed|
    requires Same(pipeline.States(), After(pipeline.m, text))
    modifies pipeline.stages, pipeline.models
    ensures pipeline.Valid()
    ensures r.Success? <==> pos < MAX_SEQ_LEN
    ensures r.Success? ==> r.value == NextToken(pipeline.m, text + [token])
    ensures r.Success? ==> Same(pipeline.States(), After(pipeline.m, text + [token]))
  {
    pipeline.StatesAligned();
    ChainExact(pipeline.m, pipeline.places, pipeline.States(), After(pipeline.m, text), text, [token],
               StepOf(pos, Tokens([token]), false));
    var logits := pipeline.Run(pos, Tokens([token]), false);
    r := if logits.Failure? then Failure(logits.error) else Success(ArgMax(logits.value).value);
  }

  /** Between traversals: the output so far is greedy, and all but its last token is cached. */
  ghost predicate CaughtUp(m: Model, states: seq<State>, prompt: seq<nat>, out: seq<nat>)
    requires m.Speaks() && prompt != [] && Within(m.embed, prompt)
  {
    && out != []
    && out == Greedy(m, prompt, |out|)
    && Same(states, After(m, prompt + out[..|out| - 1]))
  }

  lemma CaughtUpNext(m: Model, states: seq<State>, prompt: seq<nat>, out: seq<nat>, token: nat)
    requires m.Speaks() && prompt != [] && Within(m.embed, prompt)
    requires out == Greedy(m, prompt, |out|)
    requires token == NextToken(m, prompt + out) && Same(states, After(m, prompt + out))
    ensures CaughtUp(m, states, prompt, out + [token])
  {
    assert (out + [token])[..|out|] == out;
    GreedyExtends(m, prompt, |out|);
  }

  // ---------- The same, call by call ----------

  /** One traversal that gets its answer. */
  ghost predicate Traverses(m: Model, places: seq<Placement>, states: seq<State>, step: Step, answer: Payload,
                            after: seq<State>)
  {
    Aligned(m, places, 0, states) && ChainCall(m, places, 0, states, SESSION, step) == (Success(answer), after)
  }

  /** The prompt first, and then each token named, at the position where the text ends. */
  ghost predicate Decodes(sent: seq<Step>, got: seq<Payload>, prompt: seq<nat>, out: seq<nat>) {
    && |sent| == |got| == |out|
    && (forall t | 0 <= t < |out| :: ArgMax(got[t]) == Some(out[t]))
    && forall t | 0 <= t < |out| ::
         sent[t] == if t == 0 then Step.Prefill(0, Tokens(prompt))
           else Step.Decode(|prompt| + t - 1, Tokens([out[t - 1]]))
  }

  lemma NextIsGreedy(m: Model, places: seq<Placement>, states: seq<State>, after: seq<State>, prompt: seq<nat>,
                     out: seq<nat>, next: nat, step: Step, answer: Payload)
    requires m.Speaks() && places != [] && prompt != [] && Within(m.embed, prompt)
    requires CaughtUp(m, states, prompt, out) && Traverses(m, places, states, step, answer, after)
    requires step == Step.Decode(|prompt| + |out| - 1, Tokens([out[|out| - 1]])) && ArgMax(answer) == Some(next)
    ensures CaughtUp(m, after, prompt, out + [next])
  {
    var last := out[|out| - 1];
    var text := prompt + out[..|out| - 1];
    assert text + [last] == prompt + out;
    ChainExact(m, places, states, After(m, text), text, [last], step);
    CaughtUpNext(m, after, prompt, out, next);
  }

  lemma FirstIsGreedy(m: Model, places: seq<Placement>, states: seq<State>, after: seq<State>, prompt: seq<nat>,
                      first: nat, step: Step, answer: Payload)
    requires m.Speaks() && places != [] && Same(states, State(Cleared(|m.layers|), None))
    requires Traverses(m, places, states, step, answer, after)
    requires step == Step.Prefill(0, Tokens(prompt)) && ArgMax(answer) == Some(first)
    ensures prompt != [] && Within(m.embed, prompt) && CaughtUp(m, after, prompt, [first])
  {
    var one := State(Cleared(|m.layers|), None);
    if prompt == [] {
      EmptyPromptFails(m, places, states, one, step);
      assert false;
    } else {
      assert [] + prompt == prompt && prompt + [] == prompt;
      ChainExact(m, places, states, one, [], prompt, step);
      CaughtUpNext(m, after, prompt, [], first);
    }
  }

  ghost predicate AllTraverse(m: Model, places: seq<Placement>, held: seq<seq<State>>, sent: seq<Step>,
                              got: seq<Payload>)
  {
    && |held| == |sent| + 1 == |got| + 1
    && forall t | 0 <= t < |sent| :: Traverses(m, places, held[t], sent[t], got[t], held[t + 1])
  }

  lemma PrefixGrows<T>(s: seq<T>, n: nat)
    requires n < |s|
    ensures s[..n] + [s[n]] == s[..n + 1]
    ensures n > 0 ==> s[..n][n - 1] == s[n - 1]
  {
  }

  lemma OneMoreAnswer(m: Model, places: seq<Placement>, held: seq<seq<State>>, sent: seq<Step>, got: seq<Payload>,
                      prompt: seq<nat>, out: seq<nat>, n: nat)
    requires m.Speaks() && places != [] && AllTraverse(m, places, held, sent, got) && Decodes(sent, got, prompt, out)
    requires 0 < n < |out| && prompt != [] && Within(m.embed, prompt) && CaughtUp(m, held[n], prompt, out[..n])
    ensures CaughtUp(m, held[n + 1], prompt, out[..n + 1])
  {
    PrefixGrows(out, n);
    NextIsGreedy(m, places, held[n], held[n + 1], prompt, out[..n], out[n], sent[n], got[n]);
  }

  lemma FirstAnswer(m: Model, places: seq<Placement>, held: seq<seq<State>>, sent: seq<Step>, got: seq<Payload>,
                    prompt: seq<nat>, out: seq<nat>)
    requires m.Speaks() && places != [] && AllTraverse(m, places, held, sent, got) && Decodes(sent, got, prompt, out)
    requires out != [] && Same(held[0], State(Cleared(|m.layers|), None))
    ensures prompt != [] && Within(m.embed, prompt) && CaughtUp(m, held[1], prompt, out[..1])
  {
    FirstIsGreedy(m, places, held[0], held[1], prompt, out[0], sent[0], got[0]);
    assert out[..1] == [out[0]];
  }

  /**
   A chain that starts cleared, is sent what the decode loop sends, and answers every time, says what
   greedy decoding says.
   */
  lemma {:induction false} AnsweredIsGreedy(m: Model, places: seq<Placement>, held: seq<seq<State>>, sent: seq<Step>,
                                           got: seq<Payload>, prompt: seq<nat>, out: seq<nat>, n: nat)
    requires m.Speaks() && places != [] && AllTraverse(m, places, held, sent, got) && Decodes(sent, got, prompt, out)
    requires 0 < n <= |out| && Same(held[0], State(Cleared(|m.layers|), None))
    ensures prompt != [] && Within(m.embed, prompt) && CaughtUp(m, held[n], prompt, out[..n])
  {
    if n == 1 {
      FirstAnswer(m, places, held, sent, got, prompt, out);
    } else {
      var before := n - 1;
      AnsweredIsGreedy(m, places, held, sent, got, prompt, out, before);
      OneMoreAnswer(m, places, held, sent, got, prompt, out, before);
    }
  }

  /** The decode loop proper; `left` is how many more traversals the streams carry. */
  method DecodeFrom(pipeline: Pipeline, prompt: seq<nat>, first: nat, steps: nat, left: nat)
    returns (r: Result<seq<nat>, RunError>)
    requires pipeline.Valid() && pipeline.places != [] && pipeline.m.Speaks()
    requires prompt != [] && Within(pipeline.m.embed, prompt) && |prompt| <= MAX_SEQ_LEN
    requires CaughtUp(pipeline.m, pipeline.States(), prompt, [first])
    modifies pipeline.stages, pipeline.models
    ensures r.Success? <==> |prompt| + steps <= MAX_SEQ_LEN && steps <= left
    ensures r.Success? ==> r.value == Greedy(pipeline.m, prompt, steps + 1)
    ensures r.Failure? ==> r.error.ShardFailed? || r.error.StreamBroken?
  {
    ghost var m := pipeline.m;
    var out := [first];
    for step := 0 to steps
      invariant pipeline.Valid()
      invariant |out| == step + 1
      invariant |prompt| + step <= MAX_SEQ_LEN && step <= left
      invariant CaughtUp(m, pipeline.States(), prompt, out)
    {
      if step == left {
        return Failure(StreamBroken);
      }
      ghost var text := prompt + out[..step];
      assert text + [out[step]] == prompt + out;
      var next := NextOf(pipeline, text, out[step], |prompt| + step);
      if next.Failure? {
        return Failure(ShardFailed(next.error));
      }
      CaughtUpNext(m, pipeline.States(), prompt, out, next.value);
      out := out + [next.value];
    }
    r := Success(out);
  }

  predicate AnyRemote(places: seq<Placement>) {
    exists i :: 0 <= i < |places| && places[i].host.Peer?
  }

  /** The loop of `Pipeline::open`: the first placement whose shard cannot be loaded, here or on its peer. */
  method FirstNotLoaded(loads: seq<bool>) returns (r: Option<nat>)
    ensures r.None? <==> forall i | 0 <= i < |loads| :: loads[i]
    ensures r.Some? ==> r.value < |loads| && !loads[r.value] && forall i | 0 <= i < r.value :: loads[i]
  {
    for i := 0 to |loads|
      invariant forall j | 0 <= j < i :: loads[j]
    {
      if !loads[i] {
        return Some(i);
      }
    }
    r := None;
  }

  /**
   `run`: open the shards, prefill the prompt, then decode one token at a time, each at the position
   where the caches end.  `loads` is whether each shard can be opened, `breaks` the traversal in which
   a stream to a peer breaks, if the run gets there.  It succeeds exactly when the placements tile the
   model, every shard opens, the prompt is not empty and within the vocabulary, every position fits and
   the streams last, and then it says what greedy decoding from scratch says.
   */
  method Run(m: Model, places: seq<Placement>, loads: seq<bool>, breaks: nat, prompt: seq<nat>, maxNew: u32)
    returns (r: Result<seq<nat>, RunError>)
    requires m.Speaks() && 1 <= |m.layers| < 0x1_0000_0000
    requires PeersOnce(places) && |loads| == |places|
    ensures r.Success? <==>
      && Tiles(places, |m.layers|) && (forall i | 0 <= i < |loads| :: loads[i])
      && prompt != [] && Within(m.embed, prompt) && |prompt| + Max(1, maxNew) - 1 <= MAX_SEQ_LEN
      && ((exists i :: 0 <= i < |places| && places[i].host.Peer?) ==> Max(1, maxNew) <= breaks)
    ensures r.Failure? ==> (r.error.BadTiling? <==> !Tiles(places, |m.layers|))
    ensures r.Failure? && Tiles(places, |m.layers|) ==>
      (r.error.NotLoaded? <==> exists i :: 0 <= i < |loads| && !loads[i])
    ensures r.Success? ==> r.value == Greedy(m, prompt, Max(1, maxNew))
  {
    var tiling := CheckTiling(places, |m.layers|);
    if tiling.Failure? {
      return Failure(BadTiling(tiling.error));
    }
    var missing := FirstNotLoaded(loads);
    if missing.Some? {
      return Failure(NotLoaded(missing.value));
    }
    var pipeline := new Pipeline(m, places);
    pipeline.StatesAligned();
    JoinedCleared(m, places, 0, pipeline.States());
    r := FromPrompt(pipeline, prompt, maxNew, if AnyRemote(places) then breaks else Max(1, maxNew));
  }

  /** A newly opened pipeline, from the prompt on; `left` is how many traversals the streams carry. */
  method FromPrompt(pipeline: Pipeline, prompt: seq<nat>, maxNew: u32, left: nat)
    returns (r: Result<seq<nat>, RunError>)
    requires pipeline.Valid() && pipeline.places != [] && pipeline.m.Speaks()
    requires Same(pipeline.States(), State(Cleared(|pipeline.m.layers|), None))
    modifies pipeline.stages, pipeline.models
    ensures r.Success? <==>
      && prompt != [] && Within(pipeline.m.embed, prompt)
      && |prompt| + Max(1, maxNew) - 1 <= MAX_SEQ_LEN && Max(1, maxNew) <= left
    ensures r.Success? ==> r.value == Greedy(pipeline.m, prompt, Max(1, maxNew))
    ensures r.Failure? ==> r.error.ShardFailed? || r.error.StreamBroken?
  {
    ghost var m := pipeline.m;
    if left == 0 {
      return Failure(StreamBroken);
    }
    var next := FirstToken(pipeline, prompt);
    if next.Failure? {
      return Failure(ShardFailed(next.error));
    }
    assert prompt + Greedy(m, prompt, 0) == prompt && Greedy(m, prompt, 0) + [next.value] == [next.value];
    CaughtUpNext(m, pipeline.States(), prompt, Greedy(m, prompt, 0), next.value);
    r := DecodeFrom(pipeline, prompt, next.value, SaturatingSub(maxNew, 1), left - 1);
  }
}
