/**
 Pairing over a six-digit code, crates/lattice-net/src/pairing.rs, with symbolic cryptography: a
 SPAKE2 message, the secret it leads to, and a MAC are terms, and two terms are equal only if they
 were built alike.
 */
module Pairing {
  import opened Wrappers
  import opened Trust
  import opened Provision

  type Code = nat

  /** A SPAKE2 message, blinded with the code, or bytes that are none. */
  datatype Message = Element(code: Code, nonce: nat) | Junk(bytes: nat)

  /** What `finish` computes from the peer's message: a common group element only if the codes are the same. */
  datatype Group = Common(low: nat, high: nat) | Apart(code: Code, nonce: nat, theirs: Message)

  datatype Secret = Secret(code: Code, first: Message, second: Message, group: Group)

  datatype Transcript = Transcript(first: Message, second: Message, binding: nat)

  datatype Body = Body(key: RawKey, name: string, platform: string) | Unreadable(bytes: nat)

  datatype Mac = Tag(secret: Secret, transcript: Transcript, body: Body) | Other(bytes: nat)

  datatype Confirm = Confirm(body: Body, mac: Mac)

  datatype Error = Reflected | PairingFailed | Malformed

  /** One device in one attempt: its code, its fresh secret, what it derives from its TLS session, and who it is. */
  datatype Party = Party(code: Code, nonce: nat, binding: nat, key: Key, name: string, platform: string)

  function Ours(p: Party): Message {
    Element(p.code, p.nonce)
  }

  function OwnBody(p: Party): Body {
    Body(Point(p.key), p.name, p.platform)
  }

  /** The order of two messages; any total order would do. */
  predicate Precedes(a: Message, b: Message) {
    match (a, b)
    case (Element(c, n), Element(d, m)) => n < m || (n == m && c <= d)
    case (Junk(x), Junk(y)) => x <= y
    case (Junk(_), Element(_, _)) => true
    case (Element(_, _), Junk(_)) => false
  }

  function First(a: Message, b: Message): Message {
    if Precedes(a, b) then a else b
  }

  function Second(a: Message, b: Message): Message {
    if Precedes(a, b) then b else a
  }

  function GroupOf(p: Party, theirs: Message): Group
    requires theirs.Element?
  {
    if theirs.code == p.code then
      Common(if p.nonce <= theirs.nonce then p.nonce else theirs.nonce,
             if p.nonce <= theirs.nonce then theirs.nonce else p.nonce)
    else Apart(p.code, p.nonce, theirs)
  }

  datatype Awaiting = Awaiting(secret: Secret, transcript: Transcript, ownKey: Key)

  function KeyExchange(p: Party, theirs: Message): Result<(Awaiting, Confirm), Error> {
    var ours := Ours(p);
    if theirs == ours then Failure(Reflected)
    else if theirs.Junk? then Failure(PairingFailed)
    else
      var first, second := First(ours, theirs), Second(ours, theirs);
      var secret := Secret(p.code, first, second, GroupOf(p, theirs));
      var transcript := Transcript(first, second, p.binding);
      var body := OwnBody(p);
      Success((Awaiting(secret, transcript, p.key), Confirm(body, Tag(secret, transcript, body))))
  }

  function Finish(hash: Hash, a: Awaiting, confirm: Confirm): Result<PairedPeer, Error> {
    if confirm.mac != Tag(a.secret, a.transcript, confirm.body) then Failure(PairingFailed)
    else if confirm.body.Unreadable? then Failure(Malformed)
    else if confirm.body.key.Garbage? then Failure(PairingFailed)
    else if confirm.body.key.key == a.ownKey then Failure(Reflected)
    else Success(NewPeer(hash, confirm.body.key.key, confirm.body.name, confirm.body.platform))
  }

  /** What a device learns about the other one. */
  function Learned(hash: Hash, p: Party): PairedPeer {
    NewPeer(hash, p.key, p.name, p.platform)
  }

  lemma OrderedAlike(a: Message, b: Message, c: Message, d: Message)
    requires First(a, b) == First(c, d) && Second(a, b) == Second(c, d)
    ensures (a == c && b == d) || (a == d && b == c)
  {
  }

  lemma OrderedEitherWay(a: Message, b: Message)
    ensures First(a, b) == First(b, a) && Second(a, b) == Second(b, a)
  {
  }

  /**
   Whatever messages the two devices were given: one accepts the other's confirmation if and only if
   the codes are the same, the sessions are the same, each was given the other's own message, and
   the keys are different.  What it then learns is the other's key, name and platform.
   */
  lemma AcceptsIff(hash: Hash, p: Party, q: Party, toP: Message, toQ: Message)
    requires p.nonce != q.nonce
    requires KeyExchange(p, toP).Success? && KeyExchange(q, toQ).Success?
    ensures var r := Finish(hash, KeyExchange(p, toP).value.0, KeyExchange(q, toQ).value.1);
      && (r.Success? <==>
            p.code == q.code && p.binding == q.binding && toP == Ours(q) && toQ == Ours(p) && p.key != q.key)
      && (r.Success? ==> r.value == Learned(hash, q))
  {
    var a, confirm := KeyExchange(p, toP).value.0, KeyExchange(q, toQ).value.1;
    if confirm.mac == Tag(a.secret, a.transcript, confirm.body) {
      OrderedAlike(Ours(p), toP, Ours(q), toQ);
    }
    if toP == Ours(q) && toQ == Ours(p) {
      OrderedEitherWay(Ours(p), Ours(q));
    }
  }

  /** A device accepts neither its own message nor its own confirmation, nor one whose body was changed. */
  lemma ReflectionAndTampering(hash: Hash, p: Party, theirs: Message, body: Body)
    ensures KeyExchange(p, Ours(p)) == Failure(Reflected)
    ensures KeyExchange(p, theirs).Success? ==>
      var (a, confirm) := KeyExchange(p, theirs).value;
      && Finish(hash, a, confirm) == Failure(Reflected)
      && (body != confirm.body ==> Finish(hash, a, confirm.(body := body)) == Failure(PairingFailed))
  {
  }
}
