/** The staged greeting (protocol/zmtp/greeting.rs): a common 11-octet prelude, then either the
    53-octet ZMTP/3 tail or the single socket-type octet of ZMTP/2.0. */
module Greeting {
  import opened Bytes
  import opened Commands

  const GREETING_LENGTH := 64
  const PEEK_LENGTH := 11
  const V2_GREETING_LENGTH := 12
  const MAJOR: Byte := 3
  const V2_REVISION: Byte := 1

  function Zeros(n: nat): (s: Octets)
    ensures |s| == n && forall i :: 0 <= i < n ==> s[i] == 0
  {
    seq(n, _ => 0)
  }

  function Signature(): (s: Octets)
    ensures |s| == 10
  {
    [255] + Zeros(8) + [127]
  }

  /** What both roles send first: the signature and their own major version. */
  function Prelude(): (s: Octets)
    ensures |s| == PEEK_LENGTH
  {
    Signature() + [MAJOR]
  }

  /** The version octet behind a valid signature. The eight octets between the markers are not
      looked at. */
  function PeekRevision(buf: Octets): Option<Byte> {
    if |buf| < PEEK_LENGTH || buf[0] != 255 || buf[9] != 127 then None else Some(buf[10])
  }

  type MechanismName = s: Octets | |s| == 20 witness seq(20, _ => 0)

  function Padded(name: string): (m: MechanismName)
    requires IsAscii(name) && |name| <= 20
  {
    Ascii(name) + Zeros(20 - |name|)
  }

  function NullName(): MechanismName { Padded("NULL") }

  function PlainName(): MechanismName { Padded("PLAIN") }

  function NoiseName(): MechanismName { Padded("NOISE_XX") }

  /** Octets 11 to 63: minor version, mechanism, role and padding. */
  function V3Tail(mechanism: MechanismName, asServer: bool): (s: Octets)
    ensures |s| == GREETING_LENGTH - PEEK_LENGTH
  {
    [0] + mechanism + [if asServer then 1 else 0] + Zeros(31)
  }

  datatype V3Greeting = V3Greeting(minor: Byte, mechanism: MechanismName, asServer: bool)

  /** Decoding the first 64 octets; `None` is a protocol violation. */
  function DecodeV3(buf: Octets): Option<V3Greeting>
    requires |buf| >= GREETING_LENGTH
  {
    if buf[0] != 255 || (exists i :: 33 <= i < 64 && buf[i] != 0) || buf[10] != MAJOR || buf[32] > 1 then None
    else Some(V3Greeting(buf[11], buf[12..32], buf[32] == 1))
  }

  lemma PreludePeeks(tail: Octets)
    ensures PeekRevision(Prelude() + tail) == Some(MAJOR)
  {
  }

  /** A greeting written in two stages decodes to what its sender proposed. */
  lemma GreetingRoundTrip(mechanism: MechanismName, asServer: bool, tail: Octets)
    ensures DecodeV3(Prelude() + V3Tail(mechanism, asServer) + tail) == Some(V3Greeting(0, mechanism, asServer))
  {
    var buf := Prelude() + V3Tail(mechanism, asServer) + tail;
    assert forall i :: 11 <= i < 64 ==> buf[i] == V3Tail(mechanism, asServer)[i - 11];
    assert buf[12..32] == mechanism;
  }

  lemma MechanismNamesDiffer()
    ensures NullName() != PlainName() && NullName() != NoiseName() && PlainName() != NoiseName()
  {
    assert NullName()[0] == 78 && NullName()[1] == 85;
    assert PlainName()[0] == 80;
    assert NoiseName()[0] == 78 && NoiseName()[1] == 79;
  }

  // --- ZMTP/2.0 socket types ---

  /** The socket types ZMTP/2.0 can name, in the order of their codes. */
  function V2Names(): (names: seq<Octets>)
    ensures |names| == 9
  {
    [Ascii("PAIR"), Ascii("PUB"), Ascii("SUB"), Ascii("REQ"), Ascii("REP"),
     Ascii("DEALER"), Ascii("ROUTER"), Ascii("PULL"), Ascii("PUSH")]
  }

  function SocketTypeCode(name: Octets): (code: Option<Byte>)
    ensures code.Some? ==> code.value < 9 && V2Names()[code.value] == name
    ensures code.None? ==> name !in V2Names()
  {
    if name == Ascii("PAIR") then Some(0)
    else if name == Ascii("PUB") then Some(1)
    else if name == Ascii("SUB") then Some(2)
    else if name == Ascii("REQ") then Some(3)
    else if name == Ascii("REP") then Some(4)
    else if name == Ascii("DEALER") then Some(5)
    else if name == Ascii("ROUTER") then Some(6)
    else if name == Ascii("PULL") then Some(7)
    else if name == Ascii("PUSH") then Some(8)
    else None
  }

  /** Whether the local socket type may talk to the peer's announced code. */
  predicate V2Compatible(own: Octets, peer: Byte) {
    || (own == Ascii("PULL") && peer == 8)
    || (own == Ascii("PUSH") && peer == 7)
    || (own == Ascii("PUB") && peer == 2)
    || (own == Ascii("SUB") && peer == 1)
    || (own == Ascii("REQ") && peer == 4)
    || (own == Ascii("REP") && peer == 3)
    || (own == Ascii("REQ") && peer == 6)
    || (own == Ascii("ROUTER") && peer == 3)
    || (own == Ascii("REP") && peer == 5)
    || (own == Ascii("DEALER") && peer == 4)
    || (own == Ascii("DEALER") && peer == 6)
    || (own == Ascii("ROUTER") && peer == 5)
    || (own == Ascii("DEALER") && peer == 5)
    || (own == Ascii("ROUTER") && peer == 6)
    || (own == Ascii("PAIR") && peer == 0)
  }

  lemma V2NamesDistinct(i: nat, j: nat)
    requires i < j < 9
    ensures V2Names()[i] != V2Names()[j]
  {
    // Either the lengths differ or one of the first four letters does.
    var a, b := V2Names()[i], V2Names()[j];
    if |a| == |b| {
      assert a[0] != b[0] || a[1] != b[1] || a[2] != b[2] || a[3] != b[3];
    }
  }

  lemma CodeOfName(i: nat)
    requires i < 9
    ensures SocketTypeCode(V2Names()[i]) == Some(i)
  {
    var c := SocketTypeCode(V2Names()[i]);
    assert V2Names()[i] in V2Names();
    if c.value < i { V2NamesDistinct(c.value, i); }
    if i < c.value { V2NamesDistinct(i, c.value); }
  }

  /** Two ends judge a ZMTP/2.0 pairing alike: one accepts the other exactly when it is accepted. */
  lemma V2PairingSymmetric(i: nat, j: nat)
    requires i < 9 && j < 9
    ensures V2Compatible(V2Names()[i], j) <==> V2Compatible(V2Names()[j], i)
  {
    CompatibleCodes(i, j);
    CompatibleCodes(j, i);
  }

  predicate CodePair(i: nat, j: nat) {
    (i, j) in {(7, 8), (8, 7), (1, 2), (2, 1), (3, 4), (4, 3), (3, 6), (6, 3), (4, 5), (5, 4),
               (5, 6), (6, 5), (5, 5), (6, 6), (0, 0)}
  }

  lemma NameIs(i: nat, k: nat)
    requires i < 9 && k < 9
    ensures V2Names()[i] == V2Names()[k] <==> i == k
  {
    if i < k { V2NamesDistinct(i, k); }
    if k < i { V2NamesDistinct(k, i); }
  }

  /** Compatibility restated on codes alone. */
  predicate CompatibleNames(names: seq<Octets>, own: Octets, peer: Byte)
    requires |names| == 9
  {
    || (own == names[7] && peer == 8) || (own == names[8] && peer == 7)
    || (own == names[1] && peer == 2) || (own == names[2] && peer == 1)
    || (own == names[3] && (peer == 4 || peer == 6)) || (own == names[4] && (peer == 3 || peer == 5))
    || (own == names[5] && (peer == 4 || peer == 6 || peer == 5))
    || (own == names[6] && (peer == 3 || peer == 5 || peer == 6))
    || (own == names[0] && peer == 0)
  }

  lemma CompatibleByNames(own: Octets, peer: Byte)
    ensures V2Compatible(own, peer) == CompatibleNames(V2Names(), own, peer)
  {
  }

  lemma CompatibleCodes(i: nat, j: nat)
    requires i < 9 && j < 9
    ensures V2Compatible(V2Names()[i], j) <==> CodePair(i, j)
  {
    CompatibleByNames(V2Names()[i], j);
    PairByIndex(V2Names(), i, j) by {
      forall k | 0 <= k < 9 ensures V2Names()[i] == V2Names()[k] <==> i == k {
        NameIs(i, k);
      }
    }
  }

  lemma PairByIndex(names: seq<Octets>, i: nat, j: nat)
    requires |names| == 9 && i < 9 && j < 9
    requires forall k :: 0 <= k < 9 ==> (names[i] == names[k] <==> i == k)
    ensures CompatibleNames(names, names[i], j) <==> CodePair(i, j)
  {
  }
}
