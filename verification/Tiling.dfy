/**
 Placements of layer ranges, `check_tiling` in crates/latticed/src/generate.rs, and what the
 placed shards really run once each range has been sent to its host.
 */
module Tiling {
  import opened Wrappers
  import opened Integers

  datatype Host = Here | Peer(id: nat)

  datatype Placement = Placement(first: u32, last: u32, host: Host)

  datatype TilingError =
    | Unplaced(next: u32, first: u32)
    | NotARange(first: u32, last: u32)
    | Short(covered: u32)

  /** Contiguous, non-empty ranges from 0 to `layers`. */
  predicate TilesFrom(places: seq<Placement>, next: nat, layers: nat) {
    if places == [] then next == layers
    else
      && places[0].first == next
      && places[0].first < places[0].last
      && TilesFrom(places[1..], places[0].last, layers)
  }

  predicate Tiles(places: seq<Placement>, layers: nat) {
    TilesFrom(places, 0, layers)
  }

  lemma {:induction false} TilesSnoc(places: seq<Placement>, next: nat, mid: nat, place: Placement)
    requires TilesFrom(places, next, mid) && place.first == mid < place.last
    ensures TilesFrom(places + [place], next, place.last)
  {
    if places == [] {
      assert [place][1..] == [];
    } else {
      TilesSnoc(places[1..], places[0].last, mid, place);
      assert (places + [place])[1..] == places[1..] + [place];
    }
  }

  /** Accepts exactly the tilings; a refusal names the first range that breaks one, or how far they reach. */
  method CheckTiling(places: seq<Placement>, layers: u32) returns (r: Result<(), TilingError>)
    ensures r.Success? <==> Tiles(places, layers)
    ensures r.Failure? ==>
      match r.error
      case Unplaced(next, first) =>
        exists k | 0 <= k < |places| :: Tiles(places[..k], next) && places[k].first == first && first != next
      case NotARange(first, last) =>
        exists k | 0 <= k < |places| :: Tiles(places[..k], first) && places[k].first == first
          && places[k].last == last <= first
      case Short(covered) => Tiles(places, covered) && covered != layers
  {
    var next: u32 := 0;
    for i := 0 to |places|
      invariant Tiles(places, layers) <==> TilesFrom(places[i..], next, layers)
      invariant Tiles(places[..i], next)
    {
      var place := places[i];
      assert places[i..][0] == place && places[i..][1..] == places[i + 1..];
      if place.first != next {
        return Failure(Unplaced(next, place.first));
      }
      if place.last <= place.first {
        return Failure(NotARange(place.first, place.last));
      }
      TilesSnoc(places[..i], 0, next, place);
      assert places[..i + 1] == places[..i] + [place];
      next := place.last;
    }
    assert places[..|places|] == places;
    r := if next == layers then Success(()) else Failure(Short(next));
  }

  // ---------- Every layer exactly once, in order ----------

  function Range(first: nat, last: nat): seq<nat>
    decreases last - first
  {
    if first >= last then [] else [first] + Range(first + 1, last)
  }

  lemma {:induction false} RangeSplits(first: nat, mid: nat, last: nat)
    requires first <= mid <= last
    ensures Range(first, last) == Range(first, mid) + Range(mid, last)
    decreases mid - first
  {
    if first < mid {
      RangeSplits(first + 1, mid, last);
    }
  }

  lemma {:induction false} RangeLength(first: nat, last: nat)
    requires first <= last
    ensures |Range(first, last)| == last - first
    ensures first < last ==> Range(first, last)[0] == first
    decreases last - first
  {
    if first < last {
      RangeLength(first + 1, last);
    }
  }

  /** The layers a list of ranges runs, one after the other. */
  function LayersRun(places: seq<Placement>): seq<nat> {
    if places == [] then [] else Range(places[0].first, places[0].last) + LayersRun(places[1..])
  }

  predicate AllRanges(places: seq<Placement>) {
    forall i | 0 <= i < |places| :: places[i].first < places[i].last
  }

  /**
   The promise of `check_tiling`: it accepts exactly the lists of non-empty ranges that run every
   layer once and in order.
   */
  lemma {:induction false} TilesIsEveryLayerOnce(places: seq<Placement>, next: nat, layers: nat)
    requires next <= layers
    ensures TilesFrom(places, next, layers) <==> AllRanges(places) && LayersRun(places) == Range(next, layers)
  {
    if places != [] {
      var place, rest := places[0], places[1..];
      assert AllRanges(places) <==> place.first < place.last && AllRanges(rest) by {
        assert forall i | 0 < i < |places| :: places[i] == rest[i - 1];
      }
      if place.first < place.last {
        RangeLength(place.first, place.last);
        RangeLength(next, layers);
        if place.first == next && place.last <= layers {
          RangeSplits(next, place.last, layers);
          TilesIsEveryLayerOnce(rest, place.last, layers);
          assert LayersRun(places) == Range(next, place.last) + LayersRun(rest);
          if LayersRun(places) == Range(next, layers) {
            assert LayersRun(rest) == LayersRun(places)[place.last - next..];
            assert Range(place.last, layers) == Range(next, layers)[place.last - next..];
          }
        } else if place.first == next {
          if TilesFrom(rest, place.last, layers) {
            TilesEndAfter(rest, place.last, layers);
          }
        } else {
          assert LayersRun(places)[0] == place.first;
        }
      }
    } else {
      RangeLength(next, layers);
    }
  }

  lemma {:induction false} TilesEndAfter(places: seq<Placement>, next: nat, layers: nat)
    requires TilesFrom(places, next, layers)
    ensures next <= layers
  {
    if places != [] {
      TilesEndAfter(places[1..], places[0].last, layers);
    }
  }

  /** The pieces of an accepted tiling, for reasoning from both ends. */
  lemma {:induction false} TilesFromOrdered(places: seq<Placement>, next: nat, layers: nat)
    requires TilesFrom(places, next, layers)
    ensures forall i | 0 <= i < |places| :: next <= places[i].first < places[i].last <= layers
    ensures forall i, j | 0 <= i < j < |places| :: places[i].last <= places[j].first
    ensures places != [] ==> places[0].first == next && places[|places| - 1].last == layers
  {
    if places != [] {
      var rest := places[1..];
      TilesFromOrdered(rest, places[0].last, layers);
      TilesEndAfter(rest, places[0].last, layers);
      assert forall i | 0 < i < |places| :: places[i] == rest[i - 1];
    }
  }

  // ---------- One shard per device ----------

  /** The last placement on a host, which is what a node keeps: its second load replaces its first. */
  function LastOn(places: seq<Placement>, host: Host): (k: int)
    ensures -1 <= k < |places|
    ensures k >= 0 ==> places[k].host == host
    ensures forall i | k < i < |places| :: places[i].host != host
  {
    if places == [] then -1
    else if places[|places| - 1].host == host then |places| - 1
    else LastOn(places[..|places| - 1], host)
  }

  /** The placements as executed: a local stage keeps its own shard, a peer runs what it was sent last. */
  function Executed(places: seq<Placement>): (run: seq<Placement>)
    ensures |run| == |places|
  {
    seq(|places|, i requires 0 <= i < |places| =>
      if places[i].host.Here? then places[i] else places[LastOn(places, places[i].host)])
  }

  predicate PeersOnce(places: seq<Placement>) {
    forall i, j | 0 <= i < j < |places| :: places[i].host.Peer? ==> places[i].host != places[j].host
  }

  lemma {:induction false} LaterRangesBreak(run: seq<Placement>, places: seq<Placement>, next: nat, layers: nat)
    requires TilesFrom(places, next, layers)
    requires |run| == |places|
    requires forall i | 0 <= i < |run| :: run[i].first < run[i].last
    requires forall i | 0 <= i < |run| :: run[i] == places[i] || run[i].first > places[i].first
    requires run != places
    ensures LayersRun(run) != Range(next, layers)
  {
    TilesEndAfter(places[1..], places[0].last, layers);
    RangeLength(next, layers);
    if run[0] == places[0] {
      var last := places[0].last;
      RangeLength(next, last);
      RangeSplits(next, last, layers);
      assert run == [run[0]] + run[1..] && places == [places[0]] + places[1..];
      LaterRangesBreak(run[1..], places[1..], last, layers);
      assert LayersRun(run)[last - next..] == LayersRun(run[1..]);
      assert Range(next, layers)[last - next..] == Range(last, layers);
    } else {
      RangeLength(run[0].first, run[0].last);
      assert LayersRun(run)[0] == run[0].first;
    }
  }

  /**
   An accepted tiling does not by itself run every layer once: naming a device twice makes it run
   its last range at both stages.  It does exactly when no device is named twice.
   */
  lemma ExecutedEveryLayerOnce(places: seq<Placement>, layers: nat)
    requires Tiles(places, layers)
    ensures LayersRun(Executed(places)) == Range(0, layers) <==> PeersOnce(places)
  {
    var run := Executed(places);
    forall i | 0 <= i < |run|
      ensures run[i].first < run[i].last
      ensures run[i] == places[i] || run[i].first > places[i].first
      ensures PeersOnce(places) ==> run[i] == places[i]
    {
      ExecutedAt(places, layers, i);
    }
    if PeersOnce(places) {
      assert run == places;
      TilesIsEveryLayerOnce(places, 0, layers);
    } else {
      var i, j :| 0 <= i < j < |places| && places[i].host.Peer? && places[i].host == places[j].host;
      ExecutedAt(places, layers, i);
      LaterRangesBreak(run, places, 0, layers);
    }
  }

  /** Four layers in four accepted ranges, the middle two on one peer: layer 2 runs twice and layer 1 never. */
  lemma RepeatedPeerLosesALayer(peer: nat)
    ensures var places := [Placement(0, 1, Here), Placement(1, 2, Peer(peer)), Placement(2, 3, Peer(peer)),
        Placement(3, 4, Here)];
      Tiles(places, 4) && LayersRun(Executed(places)) == [0, 2, 2, 3]
  {
    var a, b, c, d := Placement(0, 1, Here), Placement(1, 2, Peer(peer)), Placement(2, 3, Peer(peer)),
        Placement(3, 4, Here);
    var places := [a, b, c, d];
    var none: seq<Placement> := [];
    assert places == [a] + ([b] + ([c] + ([d] + none)));
    FirstOf(d, none, 3, 4);
    FirstOf(c, [d] + none, 2, 4);
    FirstOf(b, [c] + ([d] + none), 1, 4);
    FirstOf(a, [b] + ([c] + ([d] + none)), 0, 4);
    assert LastOn(places, Peer(peer)) == 2 by {
      assert places[..3] == [a, b, c];
    }
    assert Executed(places) == [a] + ([c] + ([c] + ([d] + none)));
    FirstOf(c, [c] + ([d] + none), 2, 4);
    FirstOf(a, [c] + ([c] + ([d] + none)), 0, 4);
  }

  lemma FirstOf(first: Placement, rest: seq<Placement>, next: nat, layers: nat)
    ensures TilesFrom([first] + rest, next, layers) <==>
      first.first == next && first.first < first.last && TilesFrom(rest, first.last, layers)
    ensures LayersRun([first] + rest) == Range(first.first, first.last) + LayersRun(rest)
    ensures first.last == first.first + 1 ==> Range(first.first, first.last) == [first.first]
  {
    assert ([first] + rest)[1..] == rest;
  }

  lemma ExecutedAt(places: seq<Placement>, layers: nat, i: nat)
    requires Tiles(places, layers) && i < |places|
    ensures var run := Executed(places)[i];
      && run.first < run.last
      && (run == places[i] || run.first > places[i].first)
      && (places[i].host.Peer? && (exists j | i < j < |places| :: places[j].host == places[i].host) <==>
          run != places[i])
  {
    TilesFromOrdered(places, 0, layers);
    var k := LastOn(places, places[i].host);
    if i < k {
      assert places[i].first < places[i].last <= places[k].first < places[k].last;
    }
  }
}
