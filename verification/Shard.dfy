/**
 One shard serving one session at a time, `CandleShard` in crates/lattice-engine/src/candle.rs.
 Activations cross between shards as f32, so what a shard returns is what the next one reads.
 */
module Shard {
  import opened Wrappers
  import opened Vectors
  import opened Attention
  import opened Llama

  datatype Error = WrongPayload | UnknownSession | Engine

  /** A whole model: embedding, layers, final norm with output projection. */
  datatype Model = Model(embed: seq<Vec>, layers: seq<Layer>, head: Vec -> seq<real>) {
    ghost predicate Valid() {
      AllValid(layers)
    }

    /** Every last row names some token, and every token it can name has an embedding. */
    ghost predicate Speaks() {
      Valid() && forall x :: 0 < |head(x)| <= |embed|
    }
  }

  /** What `from_gguf` loads for layers `first..last` and nothing else. */
  function Slice(m: Model, first: nat, last: nat): (w: Weights)
    requires first <= last <= |m.layers|
    ensures m.Valid() ==> w.Valid()
  {
    Weights(
      if first == 0 then Some(m.embed) else None,
      m.layers[first..last],
      if last == |m.layers| then Some(m.head) else None)
  }

  /** What a shard carries from call to call, besides its timing counters. */
  datatype State = State(kv: seq<Cache>, active: Option<nat>)

  datatype Step = Prefill(pos: nat, input: Payload) | Decode(pos: nat, input: Payload)

  function Opened(w: Weights): State {
    State(Cleared(|w.layers|), None)
  }

  // ---------- One call ----------

  function RunOn(w: Weights, st: State, input: Payload, pos: nat): (r: (Result<Payload, Error>, State))
    requires w.Valid() && |st.kv| == |w.layers|
    ensures |r.1.kv| == |w.layers| && r.1.active == st.active
    ensures r.0.Success? ==> if w.head.Some? then r.0.value.Logits? else r.0.value.Hidden?
  {
    if !w.Takes(input) then (Failure(WrongPayload), st)
    else
      var (out, kv) := ForwardStep(w, st.kv, input, pos);
      (if out.Some? then Success(out.value) else Failure(Engine), st.(kv := kv))
  }

  /** The state a prefill starts from: a new session or a start at 0 clears the cache. */
  function Admitted(w: Weights, st: State, session: nat, pos: nat): (r: State)
    requires |st.kv| == |w.layers|
    ensures |r.kv| == |w.layers|
  {
    if st.active != Some(session) || pos == 0 then State(Cleared(|w.layers|), Some(session)) else st
  }

  function Call(w: Weights, st: State, session: nat, step: Step): (r: (Result<Payload, Error>, State))
    requires w.Valid() && |st.kv| == |w.layers|
    ensures |r.1.kv| == |w.layers|
    ensures r.0.Success? ==> if w.head.Some? then r.0.value.Logits? else r.0.value.Hidden?
    ensures r.0.Success? ==> r.1.active == Some(session)
  {
    match step
    case Prefill(pos, input) => RunOn(w, Admitted(w, st, session, pos), input, pos)
    case Decode(pos, input) =>
      if st.active != Some(session) then (Failure(UnknownSession), st) else RunOn(w, st, input, pos)
  }

  function Dropped(w: Weights, st: State, session: nat): State {
    if st.active == Some(session) then State(Cleared(|w.layers|), None) else st
  }

  // ---------- The shard object ----------

  class CandleShard {
    const model: ShardModel
    var active: Option<nat>
    var decodes: nat

    ghost predicate Valid()
      reads this, model
    {
      model.Valid()
    }

    ghost function View(): State
      reads this, model
    {
      State(model.kv, active)
    }

    constructor (weights: Weights)
      requires weights.Valid()
      ensures Valid() && fresh(model) && model.weights == weights
      ensures View() == Opened(weights)
    {
      model := new ShardModel(weights);
      active := None;
      decodes := 0;
    }

    method Run(input: Payload, pos: nat) returns (r: Result<Payload, Error>)
      requires Valid()
      modifies model
      ensures Valid()
      ensures (r, View()) == RunOn(model.weights, old(View()), input, pos)
    {
      if !model.weights.Takes(input) {
        return Failure(WrongPayload);
      }
      var out := model.Forward(input, pos);
      r := if out.Some? then Success(out.value) else Failure(Engine);
    }

    method Prefill(session: nat, pos: nat, input: Payload) returns (r: Result<Payload, Error>)
      requires Valid()
      modifies this`active, model
      ensures Valid()
      ensures (r, View()) == Call(model.weights, old(View()), session, Step.Prefill(pos, input))
    {
      if active != Some(session) || pos == 0 {
        model.ClearKvCache();
        active := Some(session);
      }
      r := Run(input, pos);
    }

    method Decode(session: nat, pos: nat, input: Payload) returns (r: Result<Payload, Error>)
      requires Valid()
      modifies this`decodes, model
      ensures Valid()
      ensures (r, View()) == Call(model.weights, old(View()), session, Step.Decode(pos, input))
      ensures decodes == old(decodes) + if r.Success? then 1 else 0
    {
      if active != Some(session) {
        return Failure(UnknownSession);
      }
      r := Run(input, pos);
      if r.Success? {
        decodes := decodes + 1;
      }
    }

    method DropSession(session: nat)
      requires Valid()
      modifies this`active, model`kv
      ensures Valid()
      ensures View() == Dropped(model.weights, old(View()), session)
    {
      if active == Some(session) {
        model.ClearKvCache();
        active := None;
      }
    }
  }

  // ---------- Two shards in a row are one shard ----------

  lemma SliceSplits(m: Model, first: nat, mid: nat, last: nat)
    requires first <= mid <= last <= |m.layers|
    ensures Slice(m, first, last).layers == Slice(m, first, mid).layers + Slice(m, mid, last).layers
  {
  }

  /** Cutting a shard in two and feeding the second the first's output changes nothing. */
  lemma RunSplits(m: Model, first: nat, mid: nat, last: nat, s1: State, s2: State, input: Payload, pos: nat)
    requires m.Valid() && first < mid < last <= |m.layers|
    requires |s1.kv| == mid - first && |s2.kv| == last - mid && s1.active == s2.active
    ensures var (r1, t1) := RunOn(Slice(m, first, mid), s1, input, pos);
      RunOn(Slice(m, first, last), State(s1.kv + s2.kv, s1.active), input, pos) ==
        if r1.Failure? then (r1, State(t1.kv + s2.kv, s1.active))
        else var (r2, t2) := RunOn(Slice(m, mid, last), s2, r1.value, pos); (r2, State(t1.kv + t2.kv, s1.active))
  {
    if Slice(m, first, last).Takes(input) {
      ForwardSplits(m, first, mid, last, s1.kv, s2.kv, input, pos);
    }
  }

  lemma ForwardSplits(m: Model, first: nat, mid: nat, last: nat, kv1: seq<Cache>, kv2: seq<Cache>, input: Payload,
                      pos: nat)
    requires m.Valid() && first < mid < last <= |m.layers| && |kv1| == mid - first && |kv2| == last - mid
    requires Slice(m, first, last).Takes(input)
    ensures var (r1, t1) := ForwardStep(Slice(m, first, mid), kv1, input, pos);
      ForwardStep(Slice(m, first, last), kv1 + kv2, input, pos) ==
        if r1.None? then (None, t1 + kv2)
        else var (r2, t2) := ForwardStep(Slice(m, mid, last), kv2, r1.value, pos); (r2, t1 + t2)
  {
    var w, w1, w2 := Slice(m, first, last), Slice(m, first, mid), Slice(m, mid, last);
    SliceSplits(m, first, mid, last);
    if w.Reads(input) && w.Embedded(input) != [] {
      var xs := w.Embedded(input);
      StackSplits(w1.layers, w2.layers, kv1, kv2, xs, pos, StepMask(|xs|, pos));
    }
  }

  /** The state a call runs on. */
  function Entered(w: Weights, st: State, session: nat, step: Step): (r: State)
    requires |st.kv| == |w.layers|
    ensures |r.kv| == |w.layers|
  {
    if step.Prefill? then Admitted(w, st, session, step.pos) else st
  }

  lemma CallSplits(m: Model, first: nat, mid: nat, last: nat, s1: State, s2: State, session: nat, step: Step)
    requires m.Valid() && first < mid < last <= |m.layers|
    requires |s1.kv| == mid - first && |s2.kv| == last - mid && s1.active == s2.active
    ensures var whole := Call(Slice(m, first, last), State(s1.kv + s2.kv, s1.active), session, step);
      var (r1, t1) := Call(Slice(m, first, mid), s1, session, step);
      if r1.Failure? then
        && whole.0 == r1
        && whole.1 == State(t1.kv + Entered(Slice(m, mid, last), s2, session, step).kv, t1.active)
      else
        var (r2, t2) := Call(Slice(m, mid, last), s2, session, step.(input := r1.value));
        && whole.0 == r2
        && whole.1 == State(t1.kv + t2.kv, Some(session))
        && t1.active == t2.active == Some(session)
  {
    if step.Prefill? {
      var a1, a2 := Admitted(Slice(m, first, mid), s1, session, step.pos),
          Admitted(Slice(m, mid, last), s2, session, step.pos);
      assert Cleared(last - first) == Cleared(mid - first) + Cleared(last - mid);
      assert State(a1.kv + a2.kv, a1.active)
        == Admitted(Slice(m, first, last), State(s1.kv + s2.kv, s1.active), session, step.pos);
      RunSplits(m, first, mid, last, a1, a2, step.input, step.pos);
    } else if s1.active == Some(session) {
      RunSplits(m, first, mid, last, s1, s2, step.input, step.pos);
    }
  }

  /** A prefill that finds its cache emptied can only fail for what it is sent, and then before any later layer. */
  lemma ClearingPrefill(w: Weights, st: State, session: nat, pos: nat, input: Payload)
    requires w.Valid() && w.layers != [] && |st.kv| == |w.layers|
    requires st.active != Some(session) || pos == 0
    ensures var out := Call(w, st, session, Step.Prefill(pos, input)).0;
      && (out.Success? <==> w.Reads(input) && Fits(|w.Embedded(input)|, pos))
      && (out.Success? && w.head.None? ==> out.value.Hidden? && |out.value.rows| == |w.Embedded(input)|)
  {
    if w.Reads(input) && w.Embedded(input) != [] {
      PositionsAccepted(w.layers, Cleared(|w.layers|), 0, w.Embedded(input), pos);
    }
  }

  /** How many rows can start at a position over an empty cache. */
  predicate Fits(rows: nat, pos: nat) {
    rows > 0 && pos + rows <= MAX_SEQ_LEN && (rows == 1 || pos == 0)
  }
}
