/** Two handlers of which one takes no READY as large as the other's: it never gets into the data
    phase, in any run. With that, the handshake can complete exactly when both take the other's. */
module Refusal {
  import opened Bytes
  import opened Frames
  import opened Framers
  import opened Handler
  import opened HandlerSteps
  import opened Interleaving
  import opened Confluence
  import opened NullRounds
  import opened TwoSides
  import opened Network

  lemma {:induction false} ClosesSilently(ops: seq<Blueprint>)
    ensures Wire(WithClose(ops)) == Wire(ops)
  {
    assert (ops + [RequestClose])[..|ops|] == ops;
  }

  /** Waiting for a READY that is too large, or refused. */
  predicate Barred(s: H, ops: seq<Blueprint>, waiting: Phase) {
    (s.phase == waiting && s.ops == ops) || (s.phase == ErrorPhase && s.ops == WithClose(ops))
  }

  lemma RefusalRound(x: H, q: Party)
    requires x.phase == ReadyServerWaitClient || x.phase == ReadyClientWaitServer
    requires x.framer == Plain(ReadHeader) && |q.cfg.socketType| <= 255
    requires x.acc <= ReadyFrame(q) && !Admits(x.cfg.maxMsgSize, |OwnReady(q.cfg).data|)
    ensures Barred(Process(x, Never), x.ops, x.phase)
    ensures x.acc == ReadyFrame(q) ==> Process(x, Never).phase == ErrorPhase
  {
    OversizeReady(x, q);
    ProcessStep(x, Never);
  }

  function Greetings(p: Party): seq<Blueprint> { [SentFirst(), SentTail(p)] }

  /** A server with two acknowledgements, a client with three. */
  lemma BarredServer(p: Party, q: Party, n: nat, k: nat)
    requires Meet(p, q) && !Accepts(p, q) && p.isServer && 64 <= n <= |Stream(q)| && k == 2
    ensures Barred(At(p, q, n, k), Greetings(p), ReadyServerWaitClient)
    ensures n == |Stream(q)| ==> At(p, q, n, k).phase == ErrorPhase
  {
    At2Steps(p, q, n);
    GreetedRounds(p, q, n);
    RefusalRound(Greeted(p, q, n), q);
    Whole(q);
  }

  lemma Client2(p: Party, q: Party, n: nat, k: nat)
    requires Meet(p, q) && !p.isServer && 11 <= n <= |Stream(q)| && k == 2
    ensures At(p, q, n, k) == Greeted(p, q, n)
  {
    At2Steps(p, q, n);
    GreetedRounds(p, q, n);
  }

  lemma BarredClient(p: Party, q: Party, n: nat, k: nat)
    requires Meet(p, q) && !Accepts(p, q) && !p.isServer && 64 <= n <= |Stream(q)| && k == 3
    ensures Barred(At(p, q, n, k), AllSends(p), ReadyClientWaitServer)
    ensures n == |Stream(q)| ==> At(p, q, n, k).phase == ErrorPhase
  {
    Client2(p, q, n, k - 1);
    assert At(p, q, n, k) == Ack(At(p, q, n, k - 1));
    ClientAcks(p, q, n);
    StreamParts(q, n);
    RefusalRound(Greeted(p, q, n).(phase := ReadyClientWaitServer), q);
    Whole(q);
  }

  /** A state that an acknowledgement leaves alone. */
  predicate Settled(s: H) { Final(s.phase) || (s.phase == DataPhase && s.queue == [] && !s.pingSent) }

  lemma SettledAck(s: H)
    requires Settled(s)
    ensures Ack(s) == s
  {
  }

  /** How many acknowledgements it takes until the peer's READY is looked at. */
  predicate Opens(p: Party, k: nat) { if p.isServer then 1 < k < 3 else 2 < k < 4 }

  lemma PickOpens(p: Party) returns (k: nat)
    ensures Opens(p, k)
  {
    k := if p.isServer then 2 else 3;
  }

  lemma DueBefore(p: Party, q: Party, n: nat, k: nat, j: nat, x: H)
    requires n <= |Stream(q)| && j < k && InOrder(Session(), Start(p), Arrived(q, n), k) && x == At(p, q, n, j)
    ensures !Waiting(x.phase)
  {
    DueAt(Session(), ReceiveAll(Session(), Start(p), Arrived(q, n)), k, j);
  }

  /** Once it waits or is settled, a due acknowledgement changes nothing. */
  lemma RestsFrom(p: Party, q: Party, n: nat, k: nat, j: nat, x: H)
    requires n <= |Stream(q)| && j <= k && InOrder(Session(), Start(p), Arrived(q, n), k)
    requires x == At(p, q, n, j) && (Waiting(x.phase) || Settled(x))
    ensures At(p, q, n, k) == x
  {
    if Settled(x) {
      SettledAck(x);
    }
    AcksRest(Session(), ReceiveAll(Session(), Start(p), Arrived(q, n)), k, j);
  }

  /** What is sent before the READY is looked at, and that the handshake is not over. */
  lemma BeforeReady(p: Party, q: Party, n: nat, k: nat, j: nat)
    requires Meet(p, q) && n <= |Stream(q)| && InOrder(Session(), Start(p), Arrived(q, n), k)
    requires Opens(p, j) && (k < j || n < 64)
    ensures var s := At(p, q, n, k); s.phase != DataPhase && Wire(s.ops) <= Stream(p)
  {
    FirstStates(p, q, n);
    if k == 0 {
      NoAck(p, q, n, k);
    } else if k < 2 {
      OneAck(p, q, n, k);
    } else {
      var i: nat := k - (k - 1);
      OneAck(p, q, n, i);
      DueBefore(p, q, n, k, i, Versioned(p, q, n));
      SecondComes(p, q, n);
      EarlyTwo(p, q, n, k, j);
      GreetedSends(p, q, n);
    }
  }

  lemma FirstStates(p: Party, q: Party, n: nat)
    requires n <= |Stream(q)|
    ensures var s := Start(p).(acc := Arrived(q, n)); s.phase != DataPhase && Wire(s.ops) <= Stream(p)
    ensures var s := Versioned(p, q, n); s.phase != DataPhase && Wire(s.ops) <= Stream(p)
  {
    WireSends(p);
    FirstSends(p);
    TwoSends(p);
  }

  lemma NoAck(p: Party, q: Party, n: nat, k: nat)
    requires n <= |Stream(q)| && k < 1
    ensures At(p, q, n, k) == Start(p).(acc := Arrived(q, n))
  {
    At0(p, q, n);
  }

  lemma OneAck(p: Party, q: Party, n: nat, k: nat)
    requires Fit(p) && n <= |Stream(q)| && 0 < k < 2
    ensures At(p, q, n, k) == Versioned(p, q, n)
  {
    At1(p, q, n);
  }

  lemma SecondComes(p: Party, q: Party, n: nat)
    requires n <= |Stream(q)| && !Waiting(Versioned(p, q, n).phase)
    ensures n >= 11
  {
  }

  lemma EarlyTwo(p: Party, q: Party, n: nat, k: nat, j: nat)
    requires Meet(p, q) && 11 <= n <= |Stream(q)| && InOrder(Session(), Start(p), Arrived(q, n), k)
    requires Opens(p, j) && k > 1 && (k < j || n < 64)
    ensures At(p, q, n, k) == Greeted(p, q, n) && (!p.isServer || n < 64)
  {
    var i: nat := k - (k - 2);
    TwoAcks(p, q, n, i);
    GreetedSends(p, q, n);
    if k > i {
      RestsFrom(p, q, n, k, i, Greeted(p, q, n));
    }
  }

  lemma GreetedSends(p: Party, q: Party, n: nat)
    requires 11 <= n <= |Stream(q)| && (!p.isServer || n < 64)
    ensures var s := Greeted(p, q, n); s.phase != DataPhase && Wire(s.ops) <= Stream(p) && (n < 64 ==> Waiting(s.phase))
  {
    WireSends(p);
    FirstSends(p);
  }

  lemma TwoAcks(p: Party, q: Party, n: nat, k: nat)
    requires Meet(p, q) && 11 <= n <= |Stream(q)| && 1 < k < 3 && (!p.isServer || n < 64)
    ensures At(p, q, n, k) == Greeted(p, q, n)
  {
    At2Steps(p, q, n);
    GreetedRounds(p, q, n);
  }

  /** Wherever it is, a party that does not take the peer's READY is not in the data phase. */
  lemma NeverJoins(p: Party, q: Party, n: nat, k: nat)
    requires Meet(p, q) && !Accepts(p, q) && n <= |Stream(q)| && InOrder(Session(), Start(p), Arrived(q, n), k)
    ensures var s := At(p, q, n, k); s.phase != DataPhase && Wire(s.ops) <= Stream(p)
  {
    var j := PickOpens(p);
    if k < j || n < 64 {
      BeforeReady(p, q, n, k, j);
    } else {
      BarredAt(p, q, n, j);
      RestsFrom(p, q, n, k, j, At(p, q, n, j));
    }
  }

  lemma BarredSends(p: Party, s: H)
    requires Barred(s, Greetings(p), ReadyServerWaitClient) || Barred(s, AllSends(p), ReadyClientWaitServer)
    ensures s.phase != DataPhase && Wire(s.ops) <= Stream(p) && (Waiting(s.phase) || Settled(s))
  {
    WireSends(p);
    FirstSends(p);
    ClosesSilently(Greetings(p));
    ClosesSilently(AllSends(p));
  }

  lemma BarredAt(p: Party, q: Party, n: nat, k: nat)
    requires Meet(p, q) && !Accepts(p, q) && 64 <= n <= |Stream(q)| && Opens(p, k)
    ensures var s := At(p, q, n, k); s.phase != DataPhase && Wire(s.ops) <= Stream(p) && (Waiting(s.phase) || Settled(s))
  {
    if p.isServer {
      BarredServer(p, q, n, k);
    } else {
      BarredClient(p, q, n, k);
    }
    BarredSends(p, At(p, q, n, k));
  }

  /** A party that takes it sends nothing but its stream either. */
  lemma JoinsWithin(p: Party, q: Party, n: nat, k: nat)
    requires Meet(p, q) && Accepts(p, q) && n <= |Stream(q)| && InOrder(Session(), Start(p), Arrived(q, n), k)
    ensures Wire(At(p, q, n, k).ops) <= Stream(p)
  {
    var j := PickOpens(p);
    if k < j || n < 64 {
      BeforeReady(p, q, n, k, j);
    } else {
      var l := PickLast(p, q, n);
      if k <= l {
        TabledSends(p, q, n, k);
      } else {
        TabledSends(p, q, n, l);
        LastRests(p, q, n, l);
        RestsFrom(p, q, n, k, l, At(p, q, n, l));
      }
    }
  }

  lemma TabledSends(p: Party, q: Party, n: nat, k: nat)
    requires Meet(p, q) && Accepts(p, q) && Reached(p.isServer, |Stream(q)|, n, k)
    ensures Wire(At(p, q, n, k).ops) <= Stream(p)
  {
    Table(p, q, n, k);
    EntrySends(p, q, n, k, At(p, q, n, k));
  }

  lemma EntrySends(p: Party, q: Party, n: nat, k: nat, s: H)
    requires Entry(p, q, n, k, s)
    ensures Wire(s.ops) <= Stream(p)
  {
    WireSends(p);
  }

  /** The last acknowledgement that can come with `n` octets. */
  predicate Last(p: Party, q: Party, n: nat, k: nat) { if p.isServer && n < |Stream(q)| then 1 < k < 3 else 2 < k < 4 }

  lemma PickLast(p: Party, q: Party, n: nat) returns (k: nat)
    ensures Last(p, q, n, k)
  {
    k := if p.isServer && n < |Stream(q)| then 2 else 3;
  }

  lemma LastRests(p: Party, q: Party, n: nat, k: nat)
    requires Meet(p, q) && Accepts(p, q) && 64 <= n <= |Stream(q)| && Last(p, q, n, k)
    ensures Waiting(At(p, q, n, k).phase) || Settled(At(p, q, n, k))
  {
    if n == |Stream(q)| {
      Table(p, q, n, k);
    } else if p.isServer {
      ServerStillWaits(p, q, n, k);
    } else {
      ClientStillWaits(p, q, n, k);
    }
  }

  lemma ServerStillWaits(p: Party, q: Party, n: nat, k: nat)
    requires Meet(p, q) && Accepts(p, q) && p.isServer && 64 <= n < |Stream(q)| && k == 2
    ensures Waiting(At(p, q, n, k).phase)
  {
    At2(p, q, n);
  }

  lemma ClientStillWaits(p: Party, q: Party, n: nat, k: nat)
    requires Meet(p, q) && Accepts(p, q) && !p.isServer && 64 <= n < |Stream(q)| && k == 3
    ensures Waiting(At(p, q, n, k).phase)
  {
    At3Client(p, q, n);
  }

  // --- Whole runs ---

  lemma Places(p: Party, q: Party, n: nat, k: nat)
    requires n <= |Stream(q)|
    ensures Where(Handlers(), Facing(p, q), Facing(q, p), n, k) == At(p, q, n, k)
  {
  }

  lemma StartsAble(p: Party, q: Party)
    requires Fit(p)
    ensures Balanced(Start(p), 0) && forall n: nat :: n <= |Stream(q)| ==> Able(Start(p), Stream(q)[..n])
  {
    forall n: nat | n <= |Stream(q)| ensures Able(Start(p), Stream(q)[..n]) {
      StartAble(p.cfg, p.isServer, p.room, Stream(q)[..n]);
    }
    StartAble(p.cfg, p.isServer, p.room, []);
  }

  /** In the data phase only if the peer's READY is taken. */
  function Allowed(p: Party, q: Party): H -> bool { (s: H) => s.phase == DataPhase ==> Accepts(p, q) }

  lemma FacingSafe(p: Party, q: Party)
    requires Meet(p, q)
    ensures SafeSide(Handlers(), Facing(p, q), Facing(q, p), Allowed(p, q))
  {
    StartsAble(p, q);
    forall n: nat, k: nat | n <= |Stream(q)| && InOrder(Session(), Start(p), Stream(q)[..n], k)
      ensures var s := Where(Handlers(), Facing(p, q), Facing(q, p), n, k); Wire(s.ops) <= Stream(p) && Allowed(p, q)(s)
    {
      Places(p, q, n, k);
      if Accepts(p, q) {
        JoinsWithin(p, q, n, k);
      } else {
        NeverJoins(p, q, n, k);
      }
    }
  }

  /** The main result: in no run, whatever the chunks and the acknowledgements, is a party in the
      data phase whose size limit does not admit the other's READY. */
  lemma RefusedNeverJoins(p: Party, q: Party, ms: seq<Move>)
    requires Meet(p, q) && Runs(Handlers(), Opening(Facing(p, q), Facing(q, p)), ms)
    ensures var t := EndOf(Handlers(), Opening(Facing(p, q), Facing(q, p)), ms);
            (!Accepts(p, q) ==> t.a.phase != DataPhase) && (!Accepts(q, p) ==> t.b.phase != DataPhase)
  {
    SessionLawful();
    FacingSafe(p, q);
    FacingSafe(q, p);
    EveryRunSafe(Handlers(), Facing(p, q), Facing(q, p), Allowed(p, q), Allowed(q, p), ms);
  }

  /** So both ends can get into the data phase exactly when each takes the other's READY. */
  lemma BothJoinIff(p: Party, q: Party)
    requires Meet(p, q)
    ensures (exists ms :: Runs(Handlers(), Opening(Facing(p, q), Facing(q, p)), ms)
                          && (var t := EndOf(Handlers(), Opening(Facing(p, q), Facing(q, p)), ms);
                              t.a.phase == DataPhase && t.b.phase == DataPhase))
            <==> Accepts(p, q) && Accepts(q, p)
  {
    var t0 := Opening(Facing(p, q), Facing(q, p));
    forall ms | Runs(Handlers(), t0, ms)
      ensures var t := EndOf(Handlers(), t0, ms);
              (!Accepts(p, q) ==> t.a.phase != DataPhase) && (!Accepts(q, p) ==> t.b.phase != DataPhase)
    {
      RefusedNeverJoins(p, q, ms);
    }
    if Pair(p, q) {
      SessionLawful();
      FacingTabled(p, q);
      FacingTabled(q, p);
      OpeningOk(Handlers(), Facing(p, q), Facing(q, p));
      var ms := SomeRunCompletes(Handlers(), Facing(p, q), Facing(q, p), t0);
      assert EndOf(Handlers(), t0, ms).a.phase == DataPhase;
    }
  }
}
