/** Two machines that exchange a handshake of three sends each over joined byte streams. Given the
    laws of interleaving and a table of where each side is after so many octets and
    acknowledgements, every run completes. */
module TwoSides {
  import opened Bytes
  import opened Interleaving

  /** A side's start, what it sends in all, when it is past the handshake and what it has told its
      application then. */
  datatype Side<!S> = Side(start: S, isServer: bool, stream: Octets, past: S -> bool, told: S -> bool)

  /** The machines' reactions, and the octets a state has sent so far. */
  datatype Plant<!S> = Plant(m: Machine<S>, wire: S -> Octets)

  const FIRST := 11
  const SECOND := 64

  /** Acknowledgements that can have come with `n` of the peer's `total` octets. */
  predicate Reached(isServer: bool, total: nat, n: nat, k: nat) {
    && n <= total && k <= 3
    && (k >= 2 ==> n >= FIRST)
    && (k >= 3 ==> if isServer then n == total else n >= SECOND)
  }

  /** The sends made by then. A server holds its third until it has everything from the client. */
  function SendsAt(isServer: bool, total: nat, n: nat, k: nat): (i: nat)
    ensures 1 <= i <= 3
  {
    if k == 0 || (k == 1 && n < FIRST) then 1
    else if k == 1 || (k == 2 && n < SECOND) then 2
    else if k == 2 && isServer && n < total then 2
    else 3
  }

  function WireLength(total: nat, sends: nat): nat {
    if sends <= 1 then FIRST else if sends == 2 then SECOND else total
  }

  predicate AllThere(total: nat, n: nat, k: nat) { k == 3 && n == total }

  /** One row of the table. */
  predicate Row<S>(h: Plant<S>, a: Side<S>, total: nat, n: nat, k: nat, s: S) {
    var i := SendsAt(a.isServer, total, n, k);
    && h.m.issued(s) == i
    && h.wire(s) <= a.stream && |h.wire(s)| == WireLength(|a.stream|, i)
    && (a.past(s) <==> AllThere(total, n, k))
    && (a.past(s) ==> a.told(s))
  }

  function Where<S>(h: Plant<S>, a: Side<S>, b: Side<S>, n: nat, k: nat): S
    requires n <= |b.stream|
  {
    AllAtOnce(h.m, a.start, b.stream[..n], k)
  }

  ghost predicate TabledSide<S(!new)>(h: Plant<S>, a: Side<S>, b: Side<S>) {
    && |a.stream| > SECOND
    && h.m.balanced(a.start, 0)
    && (forall n: nat :: n <= |b.stream| ==> h.m.able(a.start, b.stream[..n]))
    && (forall n: nat, k: nat :: n <= |b.stream| && Reached(a.isServer, |b.stream|, n, k) ==>
          Row(h, a, |b.stream|, n, k, Where(h, a, b, n, k)))
  }

  ghost predicate Tabled<S(!new)>(h: Plant<S>, a: Side<S>, b: Side<S>) {
    Lawful(h.m) && a.isServer != b.isServer && TabledSide(h, a, b) && TabledSide(h, b, a)
  }

  // --- The two together ---

  datatype Net<!S> = Net(a: S, b: S, aGot: nat, bGot: nat, aAcks: nat, bAcks: nat)

  /** Some octets of the other side's stream arrive, or one send completes. */
  datatype Move = ToA(n: nat) | ToB(n: nat) | AckA | AckB

  function Opening<S>(a: Side<S>, b: Side<S>): Net<S> { Net(a.start, b.start, 0, 0, 0, 0) }

  predicate Possible<S>(h: Plant<S>, t: Net<S>, m: Move) {
    match m
    case ToA(n) => n > 0 && t.aGot + n <= |h.wire(t.b)|
    case ToB(n) => n > 0 && t.bGot + n <= |h.wire(t.a)|
    case AckA => t.aAcks < h.m.issued(t.a)
    case AckB => t.bAcks < h.m.issued(t.b)
  }

  /** The next `n` octets of a stream of which `got` have arrived. */
  function Slice(w: Octets, got: nat, n: nat): (b: Octets)
    requires got + n <= |w|
    ensures |b| == n
  {
    w[got..got + n]
  }

  function Make<S>(h: Plant<S>, t: Net<S>, m: Move): Net<S>
    requires Possible(h, t, m)
  {
    match m
    case ToA(n) => t.(a := h.m.receive(t.a, Slice(h.wire(t.b), t.aGot, n)), aGot := t.aGot + n)
    case ToB(n) => t.(b := h.m.receive(t.b, Slice(h.wire(t.a), t.bGot, n)), bGot := t.bGot + n)
    case AckA => t.(a := h.m.ack(t.a), aAcks := t.aAcks + 1)
    case AckB => t.(b := h.m.ack(t.b), bAcks := t.bAcks + 1)
  }

  /** One side is where the octets and acknowledgements it has had lead, in whatever order. */
  ghost predicate SideOk<S(!new)>(h: Plant<S>, a: Side<S>, b: Side<S>, s: S, got: nat, acks: nat) {
    && got <= |b.stream| && Reached(a.isServer, |b.stream|, got, acks)
    && s == Where(h, a, b, got, acks)
    && InOrder(h.m, a.start, b.stream[..got], acks)
  }

  ghost predicate NetOk<S(!new)>(h: Plant<S>, a: Side<S>, b: Side<S>, t: Net<S>) {
    && SideOk(h, a, b, t.a, t.aGot, t.aAcks)
    && SideOk(h, b, a, t.b, t.bGot, t.bAcks)
    && t.aGot <= |h.wire(t.b)| && t.bGot <= |h.wire(t.a)|
  }

  lemma SideRow<S(!new)>(h: Plant<S>, a: Side<S>, b: Side<S>, s: S, got: nat, acks: nat)
    requires TabledSide(h, a, b) && SideOk(h, a, b, s, got, acks)
    ensures Row(h, a, |b.stream|, got, acks, s)
  {
  }

  lemma SideStarts<S(!new)>(h: Plant<S>, a: Side<S>, b: Side<S>)
    requires Tabled(h, a, b)
    ensures SideOk(h, a, b, a.start, 0, 0)
  {
  }

  lemma NextSlice(w: Octets, stream: Octets, got: nat, n: nat)
    requires w <= stream && got + n <= |w|
    ensures stream[..got] + Slice(w, got, n) == stream[..got + n]
  {
  }

  lemma SideReceives<S(!new)>(h: Plant<S>, a: Side<S>, b: Side<S>, s: S, got: nat, acks: nat, w: Octets, n: nat)
    requires Lawful(h.m) && TabledSide(h, a, b) && SideOk(h, a, b, s, got, acks)
    requires w <= b.stream && n > 0 && got + n <= |w|
    ensures SideOk(h, a, b, h.m.receive(s, Slice(w, got, n)), got + n, acks)
  {
    NextSlice(w, b.stream, got, n);
    MoreOctets(h.m, a.start, b.stream[..got], acks, Slice(w, got, n));
  }

  lemma SideAcks<S(!new)>(h: Plant<S>, a: Side<S>, b: Side<S>, s: S, got: nat, acks: nat)
    requires Lawful(h.m) && TabledSide(h, a, b) && SideOk(h, a, b, s, got, acks) && acks < h.m.issued(s)
    ensures SideOk(h, a, b, h.m.ack(s), got, acks + 1)
  {
    SideRow(h, a, b, s, got, acks);
    OneMoreAck(h.m, a.start, b.stream[..got], acks);
  }

  /** A side that has got more has sent no less. */
  lemma WireGrows<S(!new)>(h: Plant<S>, a: Side<S>, b: Side<S>, s: S, got: nat, acks: nat, s': S, got': nat, acks': nat)
    requires TabledSide(h, a, b) && SideOk(h, a, b, s, got, acks) && SideOk(h, a, b, s', got', acks')
    requires got <= got' && acks <= acks'
    ensures |h.wire(s)| <= |h.wire(s')|
  {
  }

  lemma ToAOk<S(!new)>(h: Plant<S>, a: Side<S>, b: Side<S>, t: Net<S>, n: nat)
    requires Tabled(h, a, b) && NetOk(h, a, b, t) && Possible(h, t, ToA(n))
    ensures NetOk(h, a, b, Make(h, t, ToA(n)))
  {
    SideRow(h, b, a, t.b, t.bGot, t.bAcks);
    SideReceives(h, a, b, t.a, t.aGot, t.aAcks, h.wire(t.b), n);
    var u := Make(h, t, ToA(n));
    WireGrows(h, a, b, t.a, t.aGot, t.aAcks, u.a, u.aGot, u.aAcks);
  }

  lemma AckAOk<S(!new)>(h: Plant<S>, a: Side<S>, b: Side<S>, t: Net<S>)
    requires Tabled(h, a, b) && NetOk(h, a, b, t) && Possible(h, t, AckA)
    ensures NetOk(h, a, b, Make(h, t, AckA))
  {
    SideAcks(h, a, b, t.a, t.aGot, t.aAcks);
    var u := Make(h, t, AckA);
    WireGrows(h, a, b, t.a, t.aGot, t.aAcks, u.a, u.aGot, u.aAcks);
  }

  function Swap<S>(t: Net<S>): Net<S> { Net(t.b, t.a, t.bGot, t.aGot, t.bAcks, t.aAcks) }

  function Mirrored(m: Move): Move {
    match m
    case ToA(n) => ToB(n)
    case ToB(n) => ToA(n)
    case AckA => AckB
    case AckB => AckA
  }

  lemma MirrorMove<S>(h: Plant<S>, t: Net<S>, m: Move)
    requires Possible(h, t, m)
    ensures Possible(h, Swap(t), Mirrored(m)) && Swap(Make(h, Swap(t), Mirrored(m))) == Make(h, t, m)
  {
  }

  /** Every move keeps both sides where they should be. */
  lemma MoveOk<S(!new)>(h: Plant<S>, a: Side<S>, b: Side<S>, t: Net<S>, m: Move)
    requires Tabled(h, a, b) && NetOk(h, a, b, t) && Possible(h, t, m)
    ensures NetOk(h, a, b, Make(h, t, m))
  {
    MirrorMove(h, t, m);
    match m
    case ToA(n) => ToAOk(h, a, b, t, n);
    case AckA => AckAOk(h, a, b, t);
    case ToB(n) => ToAOk(h, b, a, Swap(t), n);
    case AckB => AckAOk(h, b, a, Swap(t));
  }

  /** What is still to come: octets not yet delivered and acknowledgements not yet given. */
  function Left<S>(a: Side<S>, b: Side<S>, t: Net<S>): int {
    (|b.stream| - t.aGot) + (|a.stream| - t.bGot) + (3 - t.aAcks) + (3 - t.bAcks)
  }

  // --- No deadlock ---

  predicate Stuck<S>(h: Plant<S>, t: Net<S>) {
    !Possible(h, t, ToA(1)) && !Possible(h, t, ToB(1)) && !Possible(h, t, AckA) && !Possible(h, t, AckB)
  }

  lemma StuckIff<S>(h: Plant<S>, t: Net<S>)
    ensures Stuck(h, t) <==> !exists m :: Possible(h, t, m)
  {
  }

  lemma StuckMirrors<S>(h: Plant<S>, t: Net<S>)
    requires Stuck(h, t)
    ensures Stuck(h, Swap(t))
  {
  }

  /** With nothing to deliver and nothing to acknowledge, both handshakes are over. */
  lemma StuckClient<S(!new)>(h: Plant<S>, a: Side<S>, b: Side<S>, t: Net<S>)
    requires Tabled(h, a, b) && NetOk(h, a, b, t) && !a.isServer && Stuck(h, t)
    ensures a.past(t.a) && b.past(t.b)
  {
  }

  lemma StuckIsDone<S(!new)>(h: Plant<S>, a: Side<S>, b: Side<S>, t: Net<S>)
    requires Tabled(h, a, b) && NetOk(h, a, b, t) && Stuck(h, t)
    ensures a.past(t.a) && b.past(t.b)
  {
    if a.isServer {
      StuckMirrors(h, t);
      StuckClient(h, b, a, Swap(t));
    } else {
      StuckClient(h, a, b, t);
    }
  }

  // --- Whole runs ---

  predicate Runs<S>(h: Plant<S>, t: Net<S>, ms: seq<Move>)
    decreases |ms|
  {
    ms == [] || (Possible(h, t, ms[0]) && Runs(h, Make(h, t, ms[0]), ms[1..]))
  }

  function EndOf<S>(h: Plant<S>, t: Net<S>, ms: seq<Move>): Net<S>
    requires Runs(h, t, ms)
    decreases |ms|
  {
    if ms == [] then t else EndOf(h, Make(h, t, ms[0]), ms[1..])
  }

  lemma {:induction false} RunOk<S(!new)>(h: Plant<S>, a: Side<S>, b: Side<S>, t: Net<S>, ms: seq<Move>)
    requires Tabled(h, a, b) && NetOk(h, a, b, t) && Runs(h, t, ms)
    ensures NetOk(h, a, b, EndOf(h, t, ms))
    ensures |ms| + Left(a, b, EndOf(h, t, ms)) <= Left(a, b, t)
    decreases |ms|
  {
    if ms != [] {
      MoveOk(h, a, b, t, ms[0]);
      RunOk(h, a, b, Make(h, t, ms[0]), ms[1..]);
    }
  }

  /** Every run is bounded by what there is to deliver and acknowledge, and can go on until both
      sides are past the handshake and have told their applications. */
  lemma EveryRunCompletes<S(!new)>(h: Plant<S>, a: Side<S>, b: Side<S>, ms: seq<Move>)
    requires Tabled(h, a, b) && Runs(h, Opening(a, b), ms)
    ensures |ms| <= |a.stream| + |b.stream| + 6
    ensures var t := EndOf(h, Opening(a, b), ms);
            && ((exists m :: Possible(h, t, m)) || (a.past(t.a) && b.past(t.b)))
            && (a.past(t.a) <==> AllThere(|b.stream|, t.aGot, t.aAcks)) && (a.past(t.a) ==> a.told(t.a))
            && (b.past(t.b) <==> AllThere(|a.stream|, t.bGot, t.bAcks)) && (b.past(t.b) ==> b.told(t.b))
  {
    SideStarts(h, a, b);
    SideStarts(h, b, a);
    SideRow(h, a, b, a.start, 0, 0);
    SideRow(h, b, a, b.start, 0, 0);
    RunOk(h, a, b, Opening(a, b), ms);
    var t := EndOf(h, Opening(a, b), ms);
    SideRow(h, a, b, t.a, t.aGot, t.aAcks);
    SideRow(h, b, a, t.b, t.bGot, t.bAcks);
    StuckIff(h, t);
    if Stuck(h, t) {
      StuckIsDone(h, a, b, t);
    }
  }

  /** And some run does go on until then. */
  lemma {:induction false} SomeRunCompletes<S(!new)>(h: Plant<S>, a: Side<S>, b: Side<S>, t: Net<S>) returns (ms: seq<Move>)
    requires Tabled(h, a, b) && NetOk(h, a, b, t)
    ensures Runs(h, t, ms)
    ensures var u := EndOf(h, t, ms); a.past(u.a) && b.past(u.b)
    decreases Left(a, b, t)
  {
    if Stuck(h, t) {
      StuckIsDone(h, a, b, t);
      ms := [];
    } else {
      StuckIff(h, t);
      var m :| Possible(h, t, m);
      MoveOk(h, a, b, t, m);
      var rest := SomeRunCompletes(h, a, b, Make(h, t, m));
      ms := [m] + rest;
      assert ms[1..] == rest;
    }
  }

  lemma OpeningOk<S(!new)>(h: Plant<S>, a: Side<S>, b: Side<S>)
    requires Tabled(h, a, b)
    ensures NetOk(h, a, b, Opening(a, b))
  {
    SideStarts(h, a, b);
    SideStarts(h, b, a);
    SideRow(h, a, b, a.start, 0, 0);
    SideRow(h, b, a, b.start, 0, 0);
  }

  // --- Safety without a full table ---

  /** Wherever octets of the peer's stream and due acknowledgements lead, the side has sent only
      what belongs to its own stream, and is safe. */
  ghost predicate SafeSide<S(!new)>(h: Plant<S>, a: Side<S>, b: Side<S>, safe: S -> bool) {
    && h.m.balanced(a.start, 0)
    && (forall n: nat :: n <= |b.stream| ==> h.m.able(a.start, b.stream[..n]))
    && (forall n: nat, k: nat :: n <= |b.stream| && InOrder(h.m, a.start, b.stream[..n], k) ==>
          h.wire(Where(h, a, b, n, k)) <= a.stream && safe(Where(h, a, b, n, k)))
  }

  ghost predicate Placed<S(!new)>(h: Plant<S>, a: Side<S>, b: Side<S>, s: S, got: nat, acks: nat) {
    got <= |b.stream| && s == Where(h, a, b, got, acks) && InOrder(h.m, a.start, b.stream[..got], acks)
  }

  lemma PlacedReceives<S(!new)>(h: Plant<S>, a: Side<S>, b: Side<S>, s: S, got: nat, acks: nat, w: Octets, n: nat)
    requires Lawful(h.m) && (forall n: nat :: n <= |b.stream| ==> h.m.able(a.start, b.stream[..n]))
    requires Placed(h, a, b, s, got, acks) && w <= b.stream && n > 0 && got + n <= |w|
    ensures Placed(h, a, b, h.m.receive(s, Slice(w, got, n)), got + n, acks)
  {
    NextSlice(w, b.stream, got, n);
    MoreOctets(h.m, a.start, b.stream[..got], acks, Slice(w, got, n));
  }

  lemma PlacedAcks<S(!new)>(h: Plant<S>, a: Side<S>, b: Side<S>, s: S, got: nat, acks: nat)
    requires Lawful(h.m) && (forall n: nat :: n <= |b.stream| ==> h.m.able(a.start, b.stream[..n]))
    requires Placed(h, a, b, s, got, acks) && acks < h.m.issued(s)
    ensures Placed(h, a, b, h.m.ack(s), got, acks + 1)
  {
    OneMoreAck(h.m, a.start, b.stream[..got], acks);
  }

  ghost predicate NetPlaced<S(!new)>(h: Plant<S>, a: Side<S>, b: Side<S>, t: Net<S>) {
    Placed(h, a, b, t.a, t.aGot, t.aAcks) && Placed(h, b, a, t.b, t.bGot, t.bAcks)
  }

  lemma SafeWire<S(!new)>(h: Plant<S>, a: Side<S>, b: Side<S>, safe: S -> bool, s: S, got: nat, acks: nat)
    requires SafeSide(h, a, b, safe) && Placed(h, a, b, s, got, acks)
    ensures h.wire(s) <= a.stream && safe(s)
  {
  }

  ghost predicate AbleSide<S(!new)>(h: Plant<S>, a: Side<S>, b: Side<S>) {
    Lawful(h.m) && forall n: nat :: n <= |b.stream| ==> h.m.able(a.start, b.stream[..n])
  }

  lemma OwnMovePlaced<S(!new)>(h: Plant<S>, a: Side<S>, b: Side<S>, t: Net<S>, m: Move)
    requires AbleSide(h, a, b) && NetPlaced(h, a, b, t) && Possible(h, t, m) && h.wire(t.b) <= b.stream
    requires m.ToA? || m.AckA?
    ensures NetPlaced(h, a, b, Make(h, t, m))
  {
    if m.ToA? {
      PlacedReceives(h, a, b, t.a, t.aGot, t.aAcks, h.wire(t.b), m.n);
    } else {
      PlacedAcks(h, a, b, t.a, t.aGot, t.aAcks);
    }
  }

  lemma MovePlaced<S(!new)>(h: Plant<S>, a: Side<S>, b: Side<S>, safeA: S -> bool, safeB: S -> bool, t: Net<S>, m: Move)
    requires Lawful(h.m) && SafeSide(h, a, b, safeA) && SafeSide(h, b, a, safeB) && NetPlaced(h, a, b, t) && Possible(h, t, m)
    ensures NetPlaced(h, a, b, Make(h, t, m))
  {
    SafeWire(h, a, b, safeA, t.a, t.aGot, t.aAcks);
    SafeWire(h, b, a, safeB, t.b, t.bGot, t.bAcks);
    if m.ToA? || m.AckA? {
      OwnMovePlaced(h, a, b, t, m);
    } else {
      MirrorMove(h, t, m);
      OwnMovePlaced(h, b, a, Swap(t), Mirrored(m));
    }
  }

  lemma {:induction false} RunPlaced<S(!new)>(h: Plant<S>, a: Side<S>, b: Side<S>, safeA: S -> bool, safeB: S -> bool, t: Net<S>, ms: seq<Move>)
    requires Lawful(h.m) && SafeSide(h, a, b, safeA) && SafeSide(h, b, a, safeB) && NetPlaced(h, a, b, t) && Runs(h, t, ms)
    ensures NetPlaced(h, a, b, EndOf(h, t, ms))
    decreases |ms|
  {
    if ms != [] {
      MovePlaced(h, a, b, safeA, safeB, t, ms[0]);
      RunPlaced(h, a, b, safeA, safeB, Make(h, t, ms[0]), ms[1..]);
    }
  }

  /** Two safe sides stay safe in every run. */
  lemma EveryRunSafe<S(!new)>(h: Plant<S>, a: Side<S>, b: Side<S>, safeA: S -> bool, safeB: S -> bool, ms: seq<Move>)
    requires Lawful(h.m) && SafeSide(h, a, b, safeA) && SafeSide(h, b, a, safeB) && Runs(h, Opening(a, b), ms)
    ensures var t := EndOf(h, Opening(a, b), ms); safeA(t.a) && safeB(t.b)
  {
    assert b.stream[..0] == [] && a.stream[..0] == [];
    assert NetPlaced(h, a, b, Opening(a, b));
    RunPlaced(h, a, b, safeA, safeB, Opening(a, b), ms);
  }
}
