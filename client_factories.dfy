/**
 * The client factory that connects to the exact node it was asked for: it dials, reads the
 * host and port the connected node advertises, and redials while they differ from the
 * expected broker. The k-th connection's advertised identity is given as a sequence whose
 * last element repeats, the way a stubbed answer does once its list is used up; the
 * redial delay is not modelled and the redials are bounded by an attempt budget.
 */
module ClientFactories {
  import opened Wrappers
  import opened CoordinatorModel

  /** The identity the k-th connection advertises. */
  function Advertised(advertised: seq<Broker>, k: nat): Broker
    requires advertised != []
  {
    if k < |advertised| then advertised[k] else advertised[|advertised| - 1]
  }

  /** The first connection, from `from` on and below `budget`, that reaches the expected
      node. */
  function FirstMatch(expected: Broker, advertised: seq<Broker>, from: nat, budget: nat): (r: Option<nat>)
    requires advertised != []
    ensures r.Some? ==> from <= r.value < budget && Advertised(advertised, r.value) == expected
    ensures forall k :: from <= k < budget && (r.None? || k < r.value) ==> Advertised(advertised, k) != expected
    decreases budget - from
  {
    if from >= budget then None
    else if Advertised(advertised, from) == expected then Some(from)
    else FirstMatch(expected, advertised, from + 1, budget)
  }

  /**
   * Dials until a connection advertises the expected node, at most `budget` times:
   * returns how many times the underlying factory was called and which connection is kept.
   */
  method ConnectToAdvertisedNode(expected: Broker, advertised: seq<Broker>, budget: nat) returns (calls: nat, kept: Option<nat>)
    requires advertised != []
    ensures kept == FirstMatch(expected, advertised, 0, budget)
    ensures calls == if kept.Some? then kept.value + 1 else budget
  {
    calls := 0;
    kept := None;
    while calls < budget
      invariant calls <= budget
      invariant forall k :: 0 <= k < calls ==> Advertised(advertised, k) != expected
      invariant FirstMatch(expected, advertised, calls, budget) == FirstMatch(expected, advertised, 0, budget)
    {
      var connection := calls;
      calls := calls + 1;
      if Advertised(advertised, connection) == expected {
        kept := Some(connection);
        return;
      }
    }
  }

  /** A node that advertises another identity first and then the expected one: the
      factory is called twice and the second connection is kept. */
  lemma MismatchThenMatch(expected: Broker, other: Broker, budget: nat)
    requires other != expected && budget >= 2
    ensures FirstMatch(expected, [other, expected], 0, budget) == Some(1)
  {
    assert Advertised([other, expected], 0) == other;
    assert Advertised([other, expected], 1) == expected;
  }

  /** A node that advertises the expected identity at once: one call, first connection
      kept. */
  lemma MatchFirst(expected: Broker, advertised: seq<Broker>, budget: nat)
    requires advertised != [] && advertised[0] == expected && budget >= 1
    ensures FirstMatch(expected, advertised, 0, budget) == Some(0)
  {
  }

  /** A node that never advertises the expected identity exhausts the budget. */
  lemma NeverMatches(expected: Broker, advertised: seq<Broker>, budget: nat)
    requires advertised != [] && forall k :: 0 <= k < |advertised| ==> advertised[k] != expected
    ensures FirstMatch(expected, advertised, 0, budget) == None
  {
    forall k: nat
      ensures Advertised(advertised, k) != expected
    {
      var i := if k < |advertised| then k else |advertised| - 1;
      assert Advertised(advertised, k) == advertised[i];
    }
  }
}
