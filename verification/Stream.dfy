/** The header every stream opens with, crates/lattice-net/src/stream.rs. */
module Stream {
  import opened Wrappers
  import opened Integers
  import opened Bytes

  /** The bytes `LTCS`, read little-endian. */
  const MAGIC: u32 := 0x5343_544C
  const VERSION: u16 := 1
  const HEADER_LEN: nat := 20

  datatype Kind = Control | Activation | Bulk | Probe | InferenceRpc

  datatype Header = Header(kind: Kind, session: u64, generation: u32)

  datatype HeaderError = NotOurs | OtherVersion(version: u16) | UnknownKind(value: u16)

  function ToWire(kind: Kind): u16 {
    match kind
    case Control => 1
    case Activation => 2
    case Bulk => 3
    case Probe => 4
    case InferenceRpc => 5
  }

  function FromWire(value: u16): (r: Result<Kind, HeaderError>)
    ensures r.Success? <==> 1 <= value <= 5
    ensures r.Success? ==> ToWire(r.value) == value
    ensures r.Failure? ==> r.error == UnknownKind(value)
  {
    match value
    case 1 => Success(Control)
    case 2 => Success(Activation)
    case 3 => Success(Bulk)
    case 4 => Success(Probe)
    case 5 => Success(InferenceRpc)
    case _ => Failure(UnknownKind(value))
  }

  function U16(s: seq<byte>): u16
    requires |s| == 2
  {
    ToLeFromLe(s);
    Widths();
    FromLe(s)
  }

  function U32(s: seq<byte>): u32
    requires |s| == 4
  {
    ToLeFromLe(s);
    Widths();
    FromLe(s)
  }

  function U64(s: seq<byte>): u64
    requires |s| == 8
  {
    ToLeFromLe(s);
    Widths();
    FromLe(s)
  }

  function Decode(bytes: seq<byte>): Result<Header, HeaderError>
    requires |bytes| == HEADER_LEN
  {
    if U32(bytes[0..4]) != MAGIC then Failure(NotOurs)
    else if U16(bytes[4..6]) != VERSION then Failure(OtherVersion(U16(bytes[4..6])))
    else
      var kind := FromWire(U16(bytes[6..8]));
      if kind.Failure? then Failure(kind.error)
      else Success(Header(kind.value, U64(bytes[8..16]), U32(bytes[16..20])))
  }

  /** The layout: five little-endian fields, back to back. */
  function Encoded(h: Header): (s: seq<byte>)
    ensures |s| == HEADER_LEN
  {
    ToLe(MAGIC, 4) + ToLe(VERSION, 2) + ToLe(ToWire(h.kind), 2) + ToLe(h.session, 8) + ToLe(h.generation, 4)
  }

  method CopyInto(out: array<byte>, at: nat, src: seq<byte>)
    requires at + |src| <= out.Length
    modifies out
    ensures out[..at + |src|] == old(out[..at]) + src
  {
    forall i | 0 <= i < |src| {
      out[at + i] := src[i];
    }
  }

  /** Fills the buffer slice by slice; what comes out decodes to what went in. */
  method Encode(h: Header) returns (out: array<byte>)
    ensures fresh(out) && out.Length == HEADER_LEN
    ensures out[..] == Encoded(h)
    ensures Decode(out[..]) == Success(h)
  {
    out := new byte[HEADER_LEN](_ => 0);
    var magic, version, kind := ToLe(MAGIC, 4), ToLe(VERSION, 2), ToLe(ToWire(h.kind), 2);
    var session, generation := ToLe(h.session, 8), ToLe(h.generation, 4);
    CopyInto(out, 0, magic);
    CopyInto(out, 4, version);
    CopyInto(out, 6, kind);
    CopyInto(out, 8, session);
    CopyInto(out, 16, generation);
    assert out[..] == out[..20];
    DecodeEncoded(h);
  }

  lemma Slices(h: Header)
    ensures var s := Encoded(h);
      && s[0..4] == ToLe(MAGIC, 4) && s[4..6] == ToLe(VERSION, 2) && s[6..8] == ToLe(ToWire(h.kind), 2)
      && s[8..16] == ToLe(h.session, 8) && s[16..20] == ToLe(h.generation, 4)
  {
  }

  lemma DecodeEncoded(h: Header)
    ensures Decode(Encoded(h)) == Success(h)
  {
    Slices(h);
    Widths();
    FromLeToLe(MAGIC, 4);
    FromLeToLe(VERSION, 2);
    FromLeToLe(ToWire(h.kind), 2);
    FromLeToLe(h.session, 8);
    FromLeToLe(h.generation, 4);
    assert FromWire(ToWire(h.kind)) == Success(h.kind);
  }

  lemma FieldBytes(s: seq<byte>, x: nat)
    requires FromLe(s) == x
    ensures s == ToLe(x, |s|)
  {
    ToLeFromLe(s);
  }

  lemma DecodedFields(bytes: seq<byte>, h: Header)
    requires |bytes| == HEADER_LEN && Decode(bytes) == Success(h)
    ensures bytes[0..4] == ToLe(MAGIC, 4) && bytes[4..6] == ToLe(VERSION, 2) && bytes[6..8] == ToLe(ToWire(h.kind), 2)
    ensures bytes[8..16] == ToLe(h.session, 8) && bytes[16..20] == ToLe(h.generation, 4)
  {
    FieldBytes(bytes[0..4], MAGIC);
    FieldBytes(bytes[4..6], VERSION);
    FieldBytes(bytes[6..8], ToWire(h.kind));
    FieldBytes(bytes[8..16], h.session);
    FieldBytes(bytes[16..20], h.generation);
  }

  lemma FiveFields(bytes: seq<byte>)
    requires |bytes| == HEADER_LEN
    ensures bytes == bytes[0..4] + bytes[4..6] + bytes[6..8] + bytes[8..16] + bytes[16..20]
  {
  }

  /** Byte by byte: the letters `LTCS`, version 1, the kind's number, and two little-endian numbers. */
  lemma HeaderBytes(h: Header)
    ensures var s := Encoded(h);
      && s[0..6] == [76, 84, 67, 83, 1, 0] && s[7] == 0
      && s[6] == (if h.kind.Control? then 1 else if h.kind.Activation? then 2 else if h.kind.Bulk? then 3
                  else if h.kind.Probe? then 4 else 5)
      && Positional(s[8..16], 8) == h.session && Positional(s[16..20], 4) == h.generation
  {
    Slices(h);
    Widths();
    MagicBytes();
    SmallBytes(ToWire(h.kind));
    SmallBytes(1);
    assert Encoded(h)[0..6] == ToLe(MAGIC, 4) + ToLe(VERSION, 2);
    assert Encoded(h)[6..8][0] == ToLe(ToWire(h.kind), 2)[0] && Encoded(h)[6..8][1] == ToLe(ToWire(h.kind), 2)[1];
    FromLeToLe(h.session, 8);
    FromLeToLe(h.generation, 4);
    FromLeIsPositional(ToLe(h.session, 8));
    FromLeIsPositional(ToLe(h.generation, 4));
  }

  lemma SmallBytes(x: byte)
    ensures ToLe(x, 2) == [x, 0]
  {
    assert ToLe(x / 256, 1) == [0] + ToLe(0, 0);
  }

  lemma MagicBytes()
    ensures ToLe(MAGIC, 4) == [76, 84, 67, 83]
  {
    assert ToLe(0x53, 1) == [0x53] + ToLe(0, 0);
    assert ToLe(0x5343, 2) == [0x43] + ToLe(0x53, 1);
    assert ToLe(0x5343_54, 3) == [0x54] + ToLe(0x5343, 2);
  }

  /**
   The two directions undo each other on exactly the accepted strings: decoding gives `h` for one
   string of bytes only, the one encoding `h` gives.
   */
  lemma DecodesIffEncoded(bytes: seq<byte>, h: Header)
    requires |bytes| == HEADER_LEN
    ensures Decode(bytes) == Success(h) <==> bytes == Encoded(h)
  {
    if Decode(bytes) == Success(h) {
      DecodedFields(bytes, h);
      FiveFields(bytes);
    }
    DecodeEncoded(h);
  }

  /**
   Which strings are accepted, and what is said of the others: the first field that is wrong, in
   the order magic, version, kind.  Session and generation never matter.
   */
  lemma AcceptedStrings(bytes: seq<byte>)
    requires |bytes| == HEADER_LEN
    ensures Decode(bytes).Success? <==>
      bytes[0..6] == ToLe(MAGIC, 4) + ToLe(VERSION, 2) && 1 <= bytes[6] <= 5 && bytes[7] == 0
    ensures Decode(bytes) == Failure(NotOurs) <==> bytes[0..4] != ToLe(MAGIC, 4)
    ensures bytes[0..4] == ToLe(MAGIC, 4) && bytes[4..6] != ToLe(VERSION, 2) ==>
      Decode(bytes) == Failure(OtherVersion(U16(bytes[4..6])))
  {
    ToLeFromLe(bytes[0..4]);
    ToLeFromLe(bytes[4..6]);
    Widths();
    FromLeToLe(MAGIC, 4);
    FromLeToLe(VERSION, 2);
    TwoBytes(bytes[6..8]);
    assert bytes[0..6] == bytes[0..4] + bytes[4..6];
    var wanted := ToLe(MAGIC, 4) + ToLe(VERSION, 2);
    assert wanted[..4] == ToLe(MAGIC, 4) && wanted[4..] == ToLe(VERSION, 2);
    assert bytes[0..6][..4] == bytes[0..4] && bytes[0..6][4..] == bytes[4..6];
  }

  lemma TwoBytes(s: seq<byte>)
    requires |s| == 2
    ensures var low: int, high: int := s[0], s[1]; U16(s) == low + 256 * high
  {
    assert s[1..][1..] == [];
    assert FromLe(s[1..]) == s[1];
  }
}
