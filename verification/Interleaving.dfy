/** When does the order of reads and acknowledgements not matter? An answer for any machine that
    takes octets and acknowledgements. */
module Interleaving {
  import opened Bytes

  /** `able(s, b)` says that `s` may be given the octets `b`, `waiting(s)` that nothing of what
      `s` sent is unacknowledged, and `balanced(s, k)` that what `s` sent matches `k`
      acknowledgements. `issued` counts what was sent. */
  datatype Machine<!S> = Machine(
    ack: S -> S,
    receive: (S, Octets) -> S,
    able: (S, Octets) -> bool,
    waiting: S -> bool,
    balanced: (S, nat) -> bool,
    issued: S -> nat)

  ghost predicate Narrows<S(!new)>(m: Machine<S>) {
    forall s: S, a, b {:trigger m.able(s, a + b)} :: m.able(s, a + b) ==> m.able(s, a)
  }

  /** Octets in two pieces do what they do in one. */
  ghost predicate Joins<S(!new)>(m: Machine<S>) {
    forall s: S, a, b {:trigger m.receive(m.receive(s, a), b)} :: m.able(s, a + b) && a != [] && b != [] ==>
      m.receive(m.receive(s, a), b) == m.receive(s, a + b) && m.able(m.receive(s, a), b)
  }

  /** An acknowledgement that is due may as well come after the octets that follow it. */
  ghost predicate Swaps<S(!new)>(m: Machine<S>) {
    forall s: S, b {:trigger m.receive(m.ack(s), b)} :: m.able(s, b) && !m.waiting(s) && b != [] ==>
      m.receive(m.ack(s), b) == m.ack(m.receive(s, b)) && !m.waiting(m.receive(s, b))
  }

  ghost predicate AckKeepsAble<S(!new)>(m: Machine<S>) {
    forall s: S, b {:trigger m.able(m.ack(s), b)} :: m.able(s, b) && !m.waiting(s) ==> m.able(m.ack(s), b)
  }

  ghost predicate ReceiveKeepsAble<S(!new)>(m: Machine<S>) {
    forall s: S, a {:trigger m.able(m.receive(s, a), [])} :: m.able(s, a) && a != [] ==> m.able(m.receive(s, a), [])
  }

  ghost predicate ReceiveBalances<S(!new)>(m: Machine<S>) {
    forall s: S, b, k: nat {:trigger m.balanced(m.receive(s, b), k)} :: m.able(s, b) && b != [] && m.balanced(s, k) ==> m.balanced(m.receive(s, b), k)
  }

  ghost predicate AckBalances<S(!new)>(m: Machine<S>) {
    forall s: S, k: nat {:trigger m.ack(s), m.balanced(s, k)} :: m.able(s, []) && m.balanced(s, k) && k < m.issued(s) ==>
      !m.waiting(s) && m.balanced(m.ack(s), k + 1)
  }

  ghost predicate Lawful<S(!new)>(m: Machine<S>) {
    Narrows(m) && Joins(m) && Swaps(m) && AckKeepsAble(m) && ReceiveKeepsAble(m) && ReceiveBalances(m) && AckBalances(m)
  }

  datatype Input = Chunk(octets: Octets) | Acknowledged

  function Apply<S>(m: Machine<S>, s: S, i: Input): S {
    if i.Chunk? then m.receive(s, i.octets) else m.ack(s)
  }

  function RunInputs<S>(m: Machine<S>, s: S, inputs: seq<Input>): S {
    if inputs == [] then s else Apply(m, RunInputs(m, s, inputs[..|inputs| - 1]), inputs[|inputs| - 1])
  }

  function OctetsOf(inputs: seq<Input>): Octets {
    if inputs == [] then []
    else
      var last := inputs[|inputs| - 1];
      OctetsOf(inputs[..|inputs| - 1]) + (if last.Chunk? then last.octets else [])
  }

  function AcksOf(inputs: seq<Input>): nat {
    if inputs == [] then 0
    else AcksOf(inputs[..|inputs| - 1]) + (if inputs[|inputs| - 1].Acknowledged? then 1 else 0)
  }

  /** No chunk is empty, and every acknowledgement is of something sent before. */
  predicate Causal<S>(m: Machine<S>, s: S, inputs: seq<Input>) {
    inputs != [] ==>
      var most, last := inputs[..|inputs| - 1], inputs[|inputs| - 1];
      && Causal(m, s, most)
      && (last.Chunk? ==> last.octets != [])
      && (last.Acknowledged? ==> AcksOf(most) < m.issued(RunInputs(m, s, most)))
  }

  function AckTimes<S>(m: Machine<S>, s: S, k: nat): S {
    if k == 0 then s else m.ack(AckTimes(m, s, k - 1))
  }

  function ReceiveAll<S>(m: Machine<S>, s: S, octets: Octets): S {
    if octets == [] then s else m.receive(s, octets)
  }

  /** None of the first `k` acknowledgements comes while the machine waits. */
  predicate Due<S>(m: Machine<S>, s: S, k: nat) {
    k == 0 || (Due(m, s, k - 1) && !m.waiting(AckTimes(m, s, k - 1)))
  }

  lemma {:induction false} AcksKeepAble<S(!new)>(m: Machine<S>, s: S, k: nat, b: Octets)
    requires AckKeepsAble(m) && Due(m, s, k) && m.able(s, b)
    ensures m.able(AckTimes(m, s, k), b)
  {
    if k > 0 {
      AcksKeepAble(m, s, k - 1, b);
    }
  }

  /** Octets that come after any number of due acknowledgements may as well come before them. */
  lemma {:induction false} AcksSwap<S(!new)>(m: Machine<S>, s: S, k: nat, b: Octets)
    requires Lawful(m) && Due(m, s, k) && m.able(s, b) && b != []
    ensures m.receive(AckTimes(m, s, k), b) == AckTimes(m, m.receive(s, b), k)
    ensures Due(m, m.receive(s, b), k)
  {
    if k > 0 {
      AcksSwap(m, s, k - 1, b);
      AcksKeepAble(m, s, k - 1, b);
    }
  }

  lemma ReceiveMore<S(!new)>(m: Machine<S>, s: S, a: Octets, b: Octets)
    requires Lawful(m) && m.able(s, a + b) && b != []
    ensures m.receive(ReceiveAll(m, s, a), b) == ReceiveAll(m, s, a + b)
    ensures m.able(ReceiveAll(m, s, a), b)
  {
    if a == [] {
      assert a + b == b;
    }
  }

  /** Where the octets `a`, and then `k` acknowledgements, lead from `s`. */
  function AllAtOnce<S>(m: Machine<S>, s: S, a: Octets, k: nat): S {
    AckTimes(m, ReceiveAll(m, s, a), k)
  }

  /** The acknowledgements are due and match what was sent. */
  ghost predicate InOrder<S(!new)>(m: Machine<S>, s: S, a: Octets, k: nat) {
    Due(m, ReceiveAll(m, s, a), k) && m.balanced(AllAtOnce(m, s, a, k), k)
  }

  lemma MoreOctets<S(!new)>(m: Machine<S>, s: S, a: Octets, k: nat, b: Octets)
    requires Lawful(m) && InOrder(m, s, a, k) && m.able(s, a + b) && b != []
    ensures m.receive(AllAtOnce(m, s, a, k), b) == AllAtOnce(m, s, a + b, k)
    ensures InOrder(m, s, a + b, k)
  {
    var x := ReceiveAll(m, s, a);
    ReceiveMore(m, s, a, b);
    AcksSwap(m, x, k, b);
    AcksKeepAble(m, x, k, b);
  }

  lemma OneMoreAck<S(!new)>(m: Machine<S>, s: S, a: Octets, k: nat)
    requires Lawful(m) && InOrder(m, s, a, k) && m.able(s, a)
    requires k < m.issued(AllAtOnce(m, s, a, k))
    ensures m.ack(AllAtOnce(m, s, a, k)) == AllAtOnce(m, s, a, k + 1)
    ensures InOrder(m, s, a, k + 1)
  {
    var x := ReceiveAll(m, s, a);
    if a != [] {
      assert m.able(m.receive(s, a), []);
    }
    AcksKeepAble(m, x, k, []);
  }

  /** Every causal run ends where all the octets followed by all the acknowledgements lead. */
  lemma {:induction false} Canonical<S(!new)>(m: Machine<S>, s: S, inputs: seq<Input>)
    requires Lawful(m) && Causal(m, s, inputs) && m.able(s, OctetsOf(inputs)) && m.balanced(s, 0)
    ensures RunInputs(m, s, inputs) == AllAtOnce(m, s, OctetsOf(inputs), AcksOf(inputs))
    ensures InOrder(m, s, OctetsOf(inputs), AcksOf(inputs))
  {
    if inputs != [] {
      var most, last := inputs[..|inputs| - 1], inputs[|inputs| - 1];
      var a, k := OctetsOf(most), AcksOf(most);
      if last.Chunk? {
        assert m.able(s, a + last.octets);
        Canonical(m, s, most);
        MoreOctets(m, s, a, k, last.octets);
      } else {
        assert OctetsOf(inputs) == a;
        Canonical(m, s, most);
        OneMoreAck(m, s, a, k);
      }
    }
  }

  /** Two causal runs with the same octets and as many acknowledgements end in the same state. */
  lemma OrderIrrelevant<S(!new)>(m: Machine<S>, s: S, p: seq<Input>, q: seq<Input>)
    requires Lawful(m) && m.balanced(s, 0) && m.able(s, OctetsOf(p))
    requires Causal(m, s, p) && Causal(m, s, q) && OctetsOf(p) == OctetsOf(q) && AcksOf(p) == AcksOf(q)
    ensures RunInputs(m, s, p) == RunInputs(m, s, q)
  {
    Canonical(m, s, p);
    Canonical(m, s, q);
  }

  lemma {:induction false} DueAt<S>(m: Machine<S>, s: S, k: nat, j: nat)
    requires Due(m, s, k) && j < k
    ensures !m.waiting(AckTimes(m, s, j))
  {
    if j < k - 1 {
      DueAt(m, s, k - 1, j);
    }
  }

  lemma {:induction false} FixedStays<S>(m: Machine<S>, s: S, k: nat, more: nat)
    requires m.ack(AckTimes(m, s, k)) == AckTimes(m, s, k)
    ensures AckTimes(m, s, k + more) == AckTimes(m, s, k)
    decreases more
  {
    if more > 0 {
      FixedStays(m, s, k, more - 1);
    }
  }

  /** From a state that waits, or that an acknowledgement leaves alone, no due acknowledgement leads away. */
  lemma AcksRest<S>(m: Machine<S>, s: S, k: nat, j: nat)
    requires Due(m, s, k) && j <= k
    requires m.waiting(AckTimes(m, s, j)) || m.ack(AckTimes(m, s, j)) == AckTimes(m, s, j)
    ensures AckTimes(m, s, k) == AckTimes(m, s, j)
  {
    if j < k {
      DueAt(m, s, k, j);
      FixedStays(m, s, j, k - j);
    }
  }

  /** The states a run goes through, each acknowledgement being of something sent before. */
  ghost predicate Traces<S>(m: Machine<S>, states: seq<S>, inputs: seq<Input>) {
    && |states| == |inputs| + 1
    && forall k :: 0 <= k < |inputs| ==>
         && states[k + 1] == Apply(m, states[k], inputs[k])
         && (inputs[k].Chunk? ==> inputs[k].octets != [])
         && (inputs[k].Acknowledged? ==> AcksOf(inputs[..k]) < m.issued(states[k]))
  }

  lemma {:induction false} TracedRun<S>(m: Machine<S>, states: seq<S>, inputs: seq<Input>)
    requires Traces(m, states, inputs)
    ensures Causal(m, states[0], inputs) && RunInputs(m, states[0], inputs) == states[|inputs|]
    decreases |inputs|
  {
    if inputs != [] {
      var n := |inputs| - 1;
      forall k | 0 <= k < n
        ensures inputs[..n][..k] == inputs[..k]
      {
      }
      TracedRun(m, states[..n + 1], inputs[..n]);
    }
  }

  lemma OneMoreInput(inputs: seq<Input>, i: Input)
    ensures OctetsOf(inputs + [i]) == OctetsOf(inputs) + (if i.Chunk? then i.octets else [])
    ensures AcksOf(inputs + [i]) == AcksOf(inputs) + (if i.Acknowledged? then 1 else 0)
  {
    assert (inputs + [i])[..|inputs|] == inputs;
  }
}
