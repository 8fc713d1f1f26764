/**
 Length-prefixed frames on a stream, crates/lattice-net/src/codec.rs, and how a stream is opened
 and accepted, crates/lattice-net/src/transport.rs.  The transport is an ordered byte stream that
 may break after any number of bytes.
 */
module Codec {
  import opened Wrappers
  import opened Integers
  import opened Bytes
  import Stream

  datatype CodecError = Over4GiB | Broken | OverCeiling(len: u32) | BadHeader(error: Stream.HeaderError)

  // ---------- Writing ----------

  /** The sending half; the connection is lost once it has carried `capacity` bytes. */
  class SendStream {
    const capacity: nat
    var written: seq<byte>

    constructor (capacity: nat)
      ensures this.capacity == capacity && written == []
    {
      this.capacity, this.written := capacity, [];
    }

    method WriteAll(data: seq<byte>) returns (ok: bool)
      requires |written| <= capacity
      modifies this
      ensures ok <==> |old(written) + data| <= capacity
      ensures written == if ok then old(written) + data else (old(written) + data)[..capacity]
    {
      ok := |written| + |data| <= capacity;
      written := written + if ok then data else data[..capacity - |written|];
    }
  }

  function Framed(payload: seq<byte>): seq<byte> {
    ToLe(|payload|, 4) + payload
  }

  /** `write_frame`: all of the frame, or an error and as much of it as the stream still took. */
  method WriteFrame(send: SendStream, payload: seq<byte>) returns (r: Result<(), CodecError>)
    requires |send.written| <= send.capacity
    modifies send
    ensures |send.written| <= send.capacity
    ensures var all := old(send.written) + Framed(payload);
      if |payload| >= 0x1_0000_0000 then r == Failure(Over4GiB) && send.written == old(send.written)
      else if |all| <= send.capacity then r == Success(()) && send.written == all
      else r == Failure(Broken) && send.written == all[..send.capacity]
  {
    if |payload| >= 0x1_0000_0000 {
      return Failure(Over4GiB);
    }
    ghost var before := send.written;
    assert before + Framed(payload) == before + ToLe(|payload|, 4) + payload;
    var ok := send.WriteAll(ToLe(|payload|, 4));
    if ok {
      ok := send.WriteAll(payload);
    }
    r := if ok then Success(()) else Failure(Broken);
  }

  /** `Connection::open` writes the header before anything else. */
  method Open(send: SendStream, header: Stream.Header) returns (r: Result<(), CodecError>)
    requires send.written == []
    modifies send
    ensures r.Success? <==> Stream.HEADER_LEN <= send.capacity
    ensures send.written == Stream.Encoded(header)[..Min(Stream.HEADER_LEN, send.capacity)]
  {
    var bytes := Stream.Encode(header);
    var ok := send.WriteAll(bytes[..]);
    assert [] + bytes[..] == bytes[..];
    r := if ok then Success(()) else Failure(Broken);
  }

  // ---------- Reading ----------

  /** The receiving half: the bytes that will ever arrive, and how many have been taken. */
  class RecvStream {
    const arriving: seq<byte>
    var taken: nat

    constructor (arriving: seq<byte>)
      ensures this.arriving == arriving && taken == 0
    {
      this.arriving, this.taken := arriving, 0;
    }

    ghost predicate Valid()
      reads this
    {
      taken <= |arriving|
    }

    ghost function Rest(): seq<byte>
      reads this
      requires Valid()
    {
      arriving[taken..]
    }

    /** `read_exact`: the whole buffer, or failure with everything that arrived taken. */
    method ReadExact(n: nat) returns (r: Option<seq<byte>>)
      requires Valid()
      modifies this
      ensures Valid()
      ensures r.Some? <==> n <= |old(Rest())|
      ensures r.Some? ==> r.value == old(Rest())[..n] && Rest() == old(Rest())[n..]
      ensures r.None? ==> Rest() == []
    {
      if taken + n <= |arriving| {
        r := Some(arriving[taken..taken + n]);
        taken := taken + n;
      } else {
        r := None;
        taken := |arriving|;
      }
    }
  }

  /** What one `read_frame` makes of the bytes that follow. */
  datatype Parsed =
    | Frame(payload: seq<byte>, rest: seq<byte>)
    | TooLong(len: u32, rest: seq<byte>)
    | CutShort

  function Parse(bytes: seq<byte>, max: nat): Parsed {
    if |bytes| < 4 then CutShort
    else
      var len := Stream.U32(bytes[..4]);
      if len > max then TooLong(len, bytes[4..])
      else if |bytes| - 4 < len then CutShort
      else Frame(bytes[4..4 + len], bytes[4 + len..])
  }

  /** `read_frame`; an announced length over the ceiling is refused before any of the payload is read. */
  method ReadFrame(recv: RecvStream, max: nat) returns (r: Result<seq<byte>, CodecError>)
    requires recv.Valid()
    modifies recv
    ensures recv.Valid()
    ensures match Parse(old(recv.Rest()), max)
      case Frame(payload, rest) => r == Success(payload) && recv.Rest() == rest && |payload| <= max
      case TooLong(len, rest) => r == Failure(OverCeiling(len)) && recv.Rest() == rest && len > max
      case CutShort => r == Failure(Broken) && recv.Rest() == []
  {
    ghost var bytes := recv.Rest();
    var header := recv.ReadExact(4);
    if header.None? {
      return Failure(Broken);
    }
    var len := Stream.U32(header.value);
    if len > max {
      return Failure(OverCeiling(len));
    }
    var payload := recv.ReadExact(len);
    if payload.None? {
      return Failure(Broken);
    }
    assert bytes[4..][..len] == bytes[4..4 + len] && bytes[4..][len..] == bytes[4 + len..];
    r := Success(payload.value);
  }

  /** The header half of `Connection::accept`. */
  method Accept(recv: RecvStream) returns (r: Result<Stream.Header, CodecError>)
    requires recv.Valid()
    modifies recv
    ensures recv.Valid()
    ensures var bytes := old(recv.Rest());
      if |bytes| < Stream.HEADER_LEN then r == Failure(Broken) && recv.Rest() == []
      else
        && recv.Rest() == bytes[Stream.HEADER_LEN..]
        && (forall h :: r == Success(h) <==> bytes[..Stream.HEADER_LEN] == Stream.Encoded(h))
        && (r.Failure? ==> r.error.BadHeader? && Stream.Decode(bytes[..Stream.HEADER_LEN]) == Failure(r.error.error))
  {
    var bytes := recv.ReadExact(Stream.HEADER_LEN);
    if bytes.None? {
      return Failure(Broken);
    }
    var header := Stream.Decode(bytes.value);
    r := if header.Success? then Success(header.value) else Failure(BadHeader(header.error));
    forall h
      ensures r == Success(h) <==> bytes.value == Stream.Encoded(h)
    {
      Stream.DecodesIffEncoded(bytes.value, h);
    }
  }

  // ---------- A whole stream ----------

  function FramesOf(frames: seq<seq<byte>>): seq<byte> {
    if frames == [] then [] else Framed(frames[0]) + FramesOf(frames[1..])
  }

  /** `write_frame` refuses longer ones. */
  ghost predicate Sendable(frames: seq<seq<byte>>) {
    forall i | 0 <= i < |frames| :: |frames[i]| < 0x1_0000_0000
  }

  ghost predicate Within(frames: seq<seq<byte>>, max: nat) {
    forall i | 0 <= i < |frames| :: |frames[i]| <= max
  }

  /** Why reading stops: every byte was part of a frame, or the bytes stop inside one, or one is over the ceiling. */
  datatype End = AllRead | InsideFrame | Refused(len: u32)

  /** Reading frames until one fails. */
  function Received(bytes: seq<byte>, max: nat): (seq<seq<byte>>, End)
    decreases |bytes|
  {
    match Parse(bytes, max)
    case Frame(payload, rest) =>
      var (frames, end) := Received(rest, max);
      ([payload] + frames, end)
    case TooLong(len, _) => ([], Refused(len))
    case CutShort => ([], if bytes == [] then AllRead else InsideFrame)
  }

  /** Byte by byte: the payload's length, the least byte first, and then the payload. */
  lemma FrameBytes(payload: seq<byte>)
    requires |payload| < 0x1_0000_0000
    ensures |Framed(payload)| == 4 + |payload|
    ensures Positional(Framed(payload)[..4], 4) == |payload| && Framed(payload)[4..] == payload
  {
    Widths();
    FromLeToLe(|payload|, 4);
    FromLeIsPositional(ToLe(|payload|, 4));
    assert Framed(payload)[..4] == ToLe(|payload|, 4);
  }

  lemma ParseFramed(payload: seq<byte>, more: seq<byte>, max: nat)
    requires |payload| < 0x1_0000_0000
    ensures var bytes := Framed(payload) + more;
      Parse(bytes, max) == if |payload| <= max then Frame(payload, more) else TooLong(|payload|, payload + more)
  {
    var bytes := Framed(payload) + more;
    Widths();
    FromLeToLe(|payload|, 4);
    assert bytes[..4] == ToLe(|payload|, 4);
    assert bytes[4..] == payload + more;
    assert bytes[4..4 + |payload|] == payload && bytes[4 + |payload|..] == more;
  }

  lemma ParsedFramed(bytes: seq<byte>, max: nat)
    requires Parse(bytes, max).Frame?
    ensures var p := Parse(bytes, max);
      bytes == Framed(p.payload) + p.rest && |p.payload| <= max && |p.payload| < 0x1_0000_0000
  {
    ToLeFromLe(bytes[..4]);
    Widths();
    var p := Parse(bytes, max);
    assert bytes == bytes[..4] + p.payload + p.rest;
  }

  lemma ReceivedFramed(payload: seq<byte>, more: seq<byte>, max: nat)
    requires |payload| <= max && |payload| < 0x1_0000_0000
    ensures Received(Framed(payload) + more, max) == ([payload] + Received(more, max).0, Received(more, max).1)
  {
    ParseFramed(payload, more, max);
  }

  /** What a receiver with this ceiling should get of the frames sent: those before the first it refuses. */
  ghost function Accepted(frames: seq<seq<byte>>, max: nat): (seq<seq<byte>>, End)
    requires Sendable(frames)
  {
    if frames == [] then ([], AllRead)
    else if |frames[0]| > max then ([], Refused(|frames[0]|))
    else
      var (rest, end) := Accepted(frames[1..], max);
      ([frames[0]] + rest, end)
  }

  lemma {:induction false} AcceptedWithin(frames: seq<seq<byte>>, max: nat)
    requires Sendable(frames)
    ensures Accepted(frames, max) == (frames, AllRead) <==> Within(frames, max)
  {
    if frames != [] && |frames[0]| <= max {
      AcceptedWithin(frames[1..], max);
      var rest := Accepted(frames[1..], max).0;
      assert [frames[0]] + frames[1..] == frames;
      assert ([frames[0]] + rest)[1..] == rest;
      assert Within(frames[1..], max) ==> Within(frames, max);
    }
  }

  /** Frames come back as they were sent, up to the first one over the receiver's ceiling. */
  lemma {:induction false} FramesComeBack(frames: seq<seq<byte>>, max: nat)
    requires Sendable(frames)
    ensures Received(FramesOf(frames), max) == Accepted(frames, max)
  {
    if frames != [] {
      FramesComeBack(frames[1..], max);
      if |frames[0]| <= max {
        ReceivedFramed(frames[0], FramesOf(frames[1..]), max);
      } else {
        ParseFramed(frames[0], FramesOf(frames[1..]), max);
      }
    }
  }

  /** What was read is what was written: the frames returned, encoded again, are the bytes consumed. */
  lemma {:induction false} ReceivedIsPrefix(bytes: seq<byte>, max: nat)
    ensures var (frames, end) := Received(bytes, max);
      && Sendable(frames) && Within(frames, max)
      && FramesOf(frames) <= bytes
      && (end.AllRead? <==> FramesOf(frames) == bytes)
    decreases |bytes|
  {
    var p := Parse(bytes, max);
    if p.Frame? {
      ParsedFramed(bytes, max);
      ReceivedIsPrefix(p.rest, max);
      var frames := Received(p.rest, max).0;
      assert ([p.payload] + frames)[1..] == frames;
    }
  }

  /** A stream parsed from its first byte. */
  function ParseStream(bytes: seq<byte>, max: nat): Result<(Stream.Header, seq<seq<byte>>, End), CodecError> {
    if |bytes| < Stream.HEADER_LEN then Failure(Broken)
    else
      var header := Stream.Decode(bytes[..Stream.HEADER_LEN]);
      if header.Failure? then Failure(BadHeader(header.error))
      else
        var (frames, end) := Received(bytes[Stream.HEADER_LEN..], max);
        Success((header.value, frames, end))
  }

  /**
   A header and any sequence of frames within the ceiling parse back to exactly that header and
   sequence, and no other bytes parse to them.
   */
  lemma StreamRoundTrip(bytes: seq<byte>, header: Stream.Header, frames: seq<seq<byte>>, max: nat)
    ensures ParseStream(bytes, max) == Success((header, frames, AllRead)) <==>
      bytes == Stream.Encoded(header) + FramesOf(frames) && Sendable(frames) && Within(frames, max)
  {
    if |bytes| >= Stream.HEADER_LEN {
      Stream.DecodesIffEncoded(bytes[..Stream.HEADER_LEN], header);
      var body := bytes[Stream.HEADER_LEN..];
      assert bytes == bytes[..Stream.HEADER_LEN] + body;
      ReceivedIsPrefix(body, max);
      if Sendable(frames) && Within(frames, max) {
        FramesComeBack(frames, max);
        AcceptedWithin(frames, max);
      }
    }
  }

  lemma FramesOfPrefix(frames: seq<seq<byte>>, k: nat)
    requires 0 < k <= |frames|
    ensures FramesOf(frames[..k]) == Framed(frames[0]) + FramesOf(frames[1..][..k - 1])
  {
    assert frames[..k][1..] == frames[1..][..k - 1];
  }

  lemma TornFrame(payload: seq<byte>, cut: nat, max: nat)
    requires |payload| <= max && |payload| < 0x1_0000_0000 && cut < |Framed(payload)|
    ensures Parse(Framed(payload)[..cut], max).CutShort?
  {
    if cut >= 4 {
      Widths();
      FromLeToLe(|payload|, 4);
      assert Framed(payload)[..cut][..4] == ToLe(|payload|, 4);
    }
  }

  /** How many frames fit whole into the first `cut` bytes. */
  function WholeFrames(frames: seq<seq<byte>>, cut: nat): (k: nat)
    ensures k <= |frames|
  {
    if frames == [] || cut < 4 + |frames[0]| then 0 else 1 + WholeFrames(frames[1..], cut - 4 - |frames[0]|)
  }

  lemma {:induction false} WholeFramesIsMost(frames: seq<seq<byte>>, cut: nat)
    ensures var k := WholeFrames(frames, cut);
      && |FramesOf(frames[..k])| <= cut
      && (k < |frames| ==> cut < |FramesOf(frames[..k + 1])|)
  {
    if frames != [] {
      FramesOfPrefix(frames, 1);
      if cut >= 4 + |frames[0]| {
        var k := WholeFrames(frames, cut);
        WholeFramesIsMost(frames[1..], cut - 4 - |frames[0]|);
        FramesOfPrefix(frames, k);
        if k < |frames| {
          FramesOfPrefix(frames, k + 1);
        }
      }
    }
  }

  lemma CutInFirst(frames: seq<seq<byte>>, cut: nat, max: nat)
    requires Sendable(frames) && Within(frames, max) && cut <= |FramesOf(frames)|
    requires frames != [] ==> cut < 4 + |frames[0]|
    ensures Received(FramesOf(frames)[..cut], max).0 == [] && !Received(FramesOf(frames)[..cut], max).1.Refused?
  {
    if frames != [] {
      assert FramesOf(frames)[..cut] == Framed(frames[0])[..cut];
      TornFrame(frames[0], cut, max);
    }
  }

  lemma CutBehindFirst(frames: seq<seq<byte>>, cut: nat, rest: nat, max: nat)
    requires Sendable(frames) && Within(frames, max) && cut <= |FramesOf(frames)|
    requires frames != [] && cut == 4 + |frames[0]| + rest
    ensures rest <= |FramesOf(frames[1..])|
    ensures var (got, end) := Received(FramesOf(frames[1..])[..rest], max);
      Received(FramesOf(frames)[..cut], max) == ([frames[0]] + got, end)
  {
    assert FramesOf(frames)[..cut] == Framed(frames[0]) + FramesOf(frames[1..])[..rest];
    ReceivedFramed(frames[0], FramesOf(frames[1..])[..rest], max);
  }

  lemma PrefixOfCons<T>(s: seq<T>, k: nat)
    requires k < |s|
    ensures s[..k + 1] == [s[0]] + s[1..][..k]
  {
  }

  lemma {:induction false} CutFramesComeBack(frames: seq<seq<byte>>, cut: nat, max: nat)
    requires Sendable(frames) && Within(frames, max) && cut <= |FramesOf(frames)|
    ensures Received(FramesOf(frames)[..cut], max).0 == frames[..WholeFrames(frames, cut)]
    ensures !Received(FramesOf(frames)[..cut], max).1.Refused?
  {
    if frames == [] || cut < 4 + |frames[0]| {
      CutInFirst(frames, cut, max);
    } else {
      var rest := cut - 4 - |frames[0]|;
      CutBehindFirst(frames, cut, rest, max);
      CutFramesComeBack(frames[1..], rest, max);
      PrefixOfCons(frames, WholeFrames(frames[1..], rest));
    }
  }

  /**
   A stream that breaks part-way delivers exactly the frames that arrived whole: the longest prefix
   of the sequence that fits into the bytes, and a broken read exactly when a frame was torn.
   */
  lemma BrokenStreamDeliversPrefix(frames: seq<seq<byte>>, cut: nat, max: nat)
    requires Sendable(frames) && Within(frames, max) && cut <= |FramesOf(frames)|
    ensures var (got, end) := Received(FramesOf(frames)[..cut], max);
      && got <= frames
      && |FramesOf(got)| <= cut
      && (|got| < |frames| ==> cut < |FramesOf(frames[..|got| + 1])|)
      && end == (if cut == |FramesOf(got)| then AllRead else InsideFrame)
  {
    WholeFramesIsMost(frames, cut);
    CutFramesComeBack(frames, cut, max);
    ReceivedIsPrefix(FramesOf(frames)[..cut], max);
  }
}
