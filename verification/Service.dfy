/** Reaching a known device, `Service::connect` in crates/latticed/src/startup.rs. */
module Service {
  import opened Wrappers

  type Id = nat

  datatype Addr = Addr(ip: nat, port: nat, ipv4: bool, loopback: bool)

  /** Why an address was passed over. */
  datatype Failure = OtherIdentity(addr: Addr) | Unreachable(addr: Addr)

  /** Who answers at address `i`, if anyone; a list that is too short stands for addresses that do not answer. */
  function Answer(answers: seq<Option<Id>>, i: nat): Option<Id> {
    if i < |answers| then answers[i] else None
  }

  predicate Wanted(expected: Option<Id>, answer: Option<Id>) {
    answer.Some? && (expected.None? || expected == answer)
  }

  /** The first device, in the order of the addresses, that answers as the expected one. */
  function FirstWanted(addrs: seq<Addr>, expected: Option<Id>, answers: seq<Option<Id>>, from: nat): (r: Option<Id>)
    requires from <= |addrs|
    ensures r.Some? ==> Wanted(expected, r)
    ensures r.None? <==> forall i | from <= i < |addrs| :: !Wanted(expected, Answer(answers, i))
    decreases |addrs| - from
  {
    if from == |addrs| then None
    else if Wanted(expected, Answer(answers, from)) then Answer(answers, from)
    else FirstWanted(addrs, expected, answers, from + 1)
  }

  /** Nobody answers as the expected device at any of the addresses. */
  ghost predicate NobodyAnswers(addrs: seq<Addr>, expected: Option<Id>, answers: seq<Option<Id>>) {
    forall i | 0 <= i < |addrs| && i < |answers| && answers[i].Some? :: expected.Some? && answers[i] != expected
  }

  /** `id` is the first to answer as the expected device, in the order of the addresses. */
  ghost predicate FirstToAnswer(addrs: seq<Addr>, expected: Option<Id>, answers: seq<Option<Id>>, id: Id) {
    exists k :: 0 <= k < |addrs| && k < |answers| && answers[k] == Some(id)
      && (expected.None? || expected == Some(id)) && NobodyAnswers(addrs[..k], expected, answers)
  }

  lemma {:induction false} FirstWantedIs(addrs: seq<Addr>, expected: Option<Id>, answers: seq<Option<Id>>, from: nat)
    requires from <= |addrs| && NobodyAnswers(addrs[..from], expected, answers)
    ensures var r := FirstWanted(addrs, expected, answers, from);
      && (r.None? <==> NobodyAnswers(addrs, expected, answers))
      && forall id: Id :: r == Some(id) <==> FirstToAnswer(addrs, expected, answers, id)
    decreases |addrs| - from
  {
    if from == |addrs| {
      assert addrs[..from] == addrs;
    } else if Wanted(expected, Answer(answers, from)) {
      assert FirstToAnswer(addrs, expected, answers, answers[from].value);
      forall id: Id | FirstToAnswer(addrs, expected, answers, id)
        ensures answers[from] == Some(id)
      {
        var k :| 0 <= k < |addrs| && k < |answers| && answers[k] == Some(id)
          && (expected.None? || expected == Some(id)) && NobodyAnswers(addrs[..k], expected, answers);
        assert k >= from;
        assert from < k ==> answers[from].Some?;
      }
    } else {
      FirstWantedIs(addrs, expected, answers, from + 1);
    }
  }

  /**
   Tries each address in turn until one answers as the expected device.  A device with another
   identity is never returned, and when nothing is, every address has its own line in the failure.
   */
  method Connect(addrs: seq<Addr>, expected: Option<Id>, answers: seq<Option<Id>>)
    returns (conn: Option<Id>, failures: seq<Failure>)
    ensures conn == FirstWanted(addrs, expected, answers, 0)
    ensures conn.Some? ==>
      && |failures| < |addrs|
      && Answer(answers, |failures|) == conn
      && forall i | 0 <= i < |failures| :: !Wanted(expected, Answer(answers, i))
    ensures conn.None? <==> NobodyAnswers(addrs, expected, answers)
    ensures forall id: Id :: conn == Some(id) <==> FirstToAnswer(addrs, expected, answers, id)
    ensures conn.None? ==> |failures| == |addrs|
    ensures forall i | 0 <= i < |failures| ::
      (failures[i] == if Answer(answers, i).Some? then OtherIdentity(addrs[i]) else Unreachable(addrs[i]))
  {
    failures := [];
    FirstWantedIs(addrs, expected, answers, 0);
    for i := 0 to |addrs|
      invariant |failures| == i
      invariant forall k | 0 <= k < i :: !Wanted(expected, Answer(answers, k))
      invariant forall k | 0 <= k < i ::
        (failures[k] == if Answer(answers, k).Some? then OtherIdentity(addrs[k]) else Unreachable(addrs[k]))
      invariant FirstWanted(addrs, expected, answers, 0) == FirstWanted(addrs, expected, answers, i)
    {
      var answer := Answer(answers, i);
      if answer.Some? && (expected.None? || expected == answer) {
        return answer, failures;
      }
      failures := failures + [if answer.Some? then OtherIdentity(addrs[i]) else Unreachable(addrs[i])];
    }
    conn := None;
  }
}
