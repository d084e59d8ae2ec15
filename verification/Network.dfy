/** Two handlers with opposite roles and NULL security, joined by byte streams. Octets arrive in
    pieces of any size and acknowledgements as late as they like; the handshake still completes. */
module Network {
  import opened Bytes
  import opened Frames
  import opened Framers
  import opened Greeting
  import opened Handler
  import opened HandlerSteps
  import opened Interleaving
  import opened Confluence
  import opened NullRounds
  import opened TwoSides

  // --- Where a party is after `n` octets and `k` acknowledgements ---

  /** The first `n` octets of what `q` sends. */
  function Arrived(q: Party, n: nat): (r: Octets)
    requires n <= |Stream(q)|
    ensures |r| == n
  {
    Stream(q)[..n]
  }

  function At(p: Party, q: Party, n: nat, k: nat): H
    requires n <= |Stream(q)|
  {
    AllAtOnce(Session(), Start(p), Arrived(q, n), k)
  }

  lemma StreamParts(q: Party, n: nat)
    requires n <= |Stream(q)|
    ensures |Stream(q)| >= 64 + 2
    ensures n >= 11 ==> Prelude() <= Arrived(q, n)
    ensures n >= 64 ==> Tail(q) <= Arrived(q, n)[11..]
    ensures n >= 64 ==> Arrived(q, n)[11..][53..] == ReadyFrame(q)[..n - 64]
  {
    assert |ReadyFrame(q)| >= 2;
    ThreeParts(Prelude(), Tail(q), ReadyFrame(q), n);
  }

  lemma ThreeParts(a: Octets, b: Octets, c: Octets, n: nat)
    requires |a| == 11 && |b| == 53 && n <= |(a + b) + c|
    ensures var r := ((a + b) + c)[..n];
            && (n >= 11 ==> a <= r)
            && (n >= 64 ==> b <= r[11..] && r[11..][53..] == c[..n - 64])
  {
  }

  lemma At0(p: Party, q: Party, n: nat)
    requires n <= |Stream(q)|
    ensures At(p, q, n, 0) == Start(p).(acc := Arrived(q, n))
  {
    var r := Arrived(q, n);
    if r != [] {
      SendingFeeds(Start(p), r);
      assert [] + r == r;
    }
  }

  /** The signature is acknowledged: the peer's version decides. */
  function Versioned(p: Party, q: Party, n: nat): H
    requires n <= |Stream(q)|
  {
    if n < 11 then Start(p).(phase := WaitPeerRevision, greeting := Arrived(q, n))
    else Start(p).(phase := SendV3Tail, greeting := Prelude(), acc := Arrived(q, n)[11..], ops := [SentFirst(), SentTail(p)])
  }

  lemma VersionRounds(p: Party, q: Party, n: nat)
    requires 0 < n <= |Stream(q)| && Fit(p)
    ensures Process(Start(p).(acc := Arrived(q, n), phase := WaitPeerRevision), Never) == Versioned(p, q, n)
  {
    var x := Start(p).(acc := Arrived(q, n), phase := WaitPeerRevision);
    RevisionRound(x);
    StreamParts(q, n);
    ProcessRound(x);
    if n >= 11 {
      TwoSends(p);
      RestsSending(Versioned(p, q, n));
    }
  }

  lemma At1(p: Party, q: Party, n: nat)
    requires n <= |Stream(q)| && Fit(p)
    ensures At(p, q, n, 1) == Versioned(p, q, n)
  {
    At0(p, q, n);
    assert At(p, q, n, 1) == Ack(At(p, q, n, 0));
    var x := Start(p).(acc := Arrived(q, n), phase := WaitPeerRevision);
    assert Ack(Start(p).(acc := Arrived(q, n))) == Resume(x, Never);
    if n > 0 {
      VersionRounds(p, q, n);
    }
  }

  lemma TwoSends(p: Party)
    ensures Start(p).ops == [SentFirst()] && [SentFirst()] + [SentTail(p)] == [SentFirst(), SentTail(p)]
  {
  }

  /** The tail is acknowledged: the greeting is read, and the security exchange is over at once. */
  function Greeted(p: Party, q: Party, n: nat): H
    requires 11 <= n <= |Stream(q)|
  {
    if n < 64 then
      Versioned(p, q, n).(phase := WaitV3Greeting, greeting := Prelude() + Arrived(q, n)[11..], acc := [])
    else
      var t := Start(p).(greeting := [], acc := ReadyFrame(q)[..n - 64], version := Some(V3(0)), ops := [SentFirst(), SentTail(p)]);
      if p.isServer then t.(phase := ReadyServerWaitClient)
      else t.(phase := ReadyClientSend, ops := [SentFirst(), SentTail(p), SentReady(p)])
  }

  lemma GreetedRounds(p: Party, q: Party, n: nat)
    requires 11 <= n <= |Stream(q)| && Fit(p) && p.isServer != q.isServer
    ensures Process(Versioned(p, q, n).(phase := WaitV3Greeting), Never) ==
            if n < 64 || !p.isServer then Greeted(p, q, n) else Process(Greeted(p, q, n), Never)
  {
    var x := Versioned(p, q, n).(phase := WaitV3Greeting);
    StreamParts(q, n);
    if n < 64 {
      GreetingRound(x);
      ProcessRound(x);
    } else {
      GreetingThenNull(x);
      ThreeSends(p);
    }
  }

  lemma ThreeSends(p: Party)
    ensures [SentFirst(), SentTail(p)] + [SentReady(p)] == [SentFirst(), SentTail(p), SentReady(p)]
  {
  }

  lemma Whole(q: Party)
    ensures ReadyFrame(q)[..|Stream(q)| - 64] == ReadyFrame(q)
  {
  }

  lemma PartOf(q: Party, n: nat)
    requires 64 <= n < |Stream(q)|
    ensures ReadyFrame(q)[..n - 64] < ReadyFrame(q)
  {
  }

  lemma GreetingAcks(p: Party, q: Party, n: nat)
    requires 11 <= n <= |Stream(q)|
    ensures Ack(Versioned(p, q, n)) == Process(Versioned(p, q, n).(phase := WaitV3Greeting), Never)
  {
    assert |Versioned(p, q, n).greeting| == 11;
  }

  lemma At2Steps(p: Party, q: Party, n: nat)
    requires 11 <= n <= |Stream(q)| && Fit(p)
    ensures At(p, q, n, 2) == Process(Versioned(p, q, n).(phase := WaitV3Greeting), Never)
  {
    At1(p, q, n);
    assert At(p, q, n, 2) == Ack(At(p, q, n, 1));
    GreetingAcks(p, q, n);
  }

  /** The server has the client's READY and has sent its own. */
  function ServerReady(p: Party, q: Party): H {
    Learned(Greeted(p, q, |Stream(q)|), q).(phase := ReadyServerSend, ops := [SentFirst(), SentTail(p), SentReady(p)])
  }

  lemma ServerRounds(p: Party, q: Party, n: nat)
    requires 64 <= n <= |Stream(q)| && Fit(p) && Fit(q) && Accepts(p, q) && p.isServer && !q.isServer
    ensures var s := Process(Greeted(p, q, n), Never);
            if n < |Stream(q)| then s.phase == ReadyServerWaitClient && s.ops == [SentFirst(), SentTail(p)]
            else s == ServerReady(p, q)
  {
    var x := Greeted(p, q, n);
    ProcessRound(x);
    if n < |Stream(q)| {
      PartOf(q, n);
      PartReady(x, q);
    } else {
      Whole(q);
      WholeReady(x, q);
      SendReadyRound(Learned(x, q), ReadyServerSend);
      ThreeSends(p);
      RestsSending(ServerReady(p, q));
    }
  }

  lemma At2(p: Party, q: Party, n: nat)
    requires 11 <= n <= |Stream(q)| && Fit(p) && Fit(q) && Accepts(p, q) && p.isServer != q.isServer
    ensures var s := At(p, q, n, 2);
            && (n < 64 || !p.isServer ==> s == Greeted(p, q, n))
            && (64 <= n < |Stream(q)| && p.isServer ==>
                  s.phase == ReadyServerWaitClient && s.ops == [SentFirst(), SentTail(p)])
            && (n == |Stream(q)| && p.isServer ==> s == ServerReady(p, q))
  {
    At2Steps(p, q, n);
    GreetedRounds(p, q, n);
    if n >= 64 && p.isServer {
      ServerRounds(p, q, n);
    }
  }

  lemma DataRests(x: H)
    requires x.phase == DataPhase && x.framer == Plain(ReadHeader) && x.acc == []
    ensures Process(x, Never) == x
  {
    ProcessData(x, Never);
    PlainDrained(x.cfg.maxMsgSize);
  }

  /** The handshake is over and the peer's identity was told upstream. */
  predicate Joined(p: Party, q: Party, s: H) {
    && s.phase == DataPhase
    && s.events == [HandshakeComplete(AnnouncedId(q))]
    && s.ops == [SentFirst(), SentTail(p), SentReady(p)]
    && s.acc == [] && s.greeting == []
    && s.framer == Plain(ReadHeader) && s.queue == [] && !s.pingSent && s.version == Some(V3(0))
    && s.cfg.maxMsgSize == p.cfg.maxMsgSize && s.room + 1 == p.room
  }

  lemma ClientRounds(p: Party, q: Party, n: nat)
    requires 64 <= n <= |Stream(q)| && Fit(p) && Fit(q) && Accepts(p, q) && !p.isServer
    ensures var s := Process(Greeted(p, q, n).(phase := ReadyClientWaitServer), Never);
            if n < |Stream(q)| then s.phase == ReadyClientWaitServer && s.ops == [SentFirst(), SentTail(p), SentReady(p)]
            else Joined(p, q, s)
  {
    var x := Greeted(p, q, n).(phase := ReadyClientWaitServer);
    ProcessRound(x);
    if n < |Stream(q)| {
      PartOf(q, n);
      PartReady(x, q);
    } else {
      Whole(q);
      WholeReady(x, q);
      DataRests(Arm(x).s);
    }
  }

  lemma ClientAcks(p: Party, q: Party, n: nat)
    requires 64 <= n <= |Stream(q)| && !p.isServer
    ensures Ack(Greeted(p, q, n)) == Resume(Greeted(p, q, n).(phase := ReadyClientWaitServer), Never)
  {
  }

  lemma ClientResumes(p: Party, q: Party, n: nat)
    requires 64 <= n <= |Stream(q)| && Fit(p) && Fit(q) && Accepts(p, q) && !p.isServer && q.isServer
    ensures var s := Resume(Greeted(p, q, n).(phase := ReadyClientWaitServer), Never);
            if n < |Stream(q)| then s.phase == ReadyClientWaitServer && s.ops == [SentFirst(), SentTail(p), SentReady(p)]
            else Joined(p, q, s)
  {
    StreamParts(q, n);
    ClientRounds(p, q, n);
  }

  lemma At3Client(p: Party, q: Party, n: nat)
    requires 64 <= n <= |Stream(q)| && Fit(p) && Fit(q) && Accepts(p, q) && !p.isServer && q.isServer
    ensures var s := At(p, q, n, 3);
            if n < |Stream(q)| then s.phase == ReadyClientWaitServer && s.ops == [SentFirst(), SentTail(p), SentReady(p)]
            else Joined(p, q, s)
  {
    At2(p, q, n);
    assert At(p, q, n, 3) == Ack(At(p, q, n, 2));
    ClientAcks(p, q, n);
    ClientResumes(p, q, n);
  }

  lemma At3Server(p: Party, q: Party)
    requires Fit(p) && Fit(q) && Accepts(p, q) && p.isServer && !q.isServer
    ensures Joined(p, q, At(p, q, |Stream(q)|, 3))
  {
    StreamParts(q, |Stream(q)|);
    At2(p, q, |Stream(q)|);
    assert At(p, q, |Stream(q)|, 3) == Ack(ServerReady(p, q));
  }

  // --- The same in one table ---

  /** Two parties with opposite roles. */
  predicate Meet(p: Party, q: Party) { Fit(p) && Fit(q) && p.isServer != q.isServer }

  predicate Pair(p: Party, q: Party) { Meet(p, q) && Accepts(p, q) && Accepts(q, p) }

  function AllSends(p: Party): (b: seq<Blueprint>)
    ensures |b| == 3
  {
    [SentFirst(), SentTail(p), SentReady(p)]
  }

  lemma FirstSends(p: Party)
    ensures AllSends(p)[..1] == [SentFirst()] && AllSends(p)[..2] == [SentFirst(), SentTail(p)] && AllSends(p)[..3] == AllSends(p)
  {
  }

  /** What has been sent, and whether the handshake is over. */
  predicate Entry(p: Party, q: Party, n: nat, k: nat, s: H) {
    && s.ops == AllSends(p)[..SendsAt(p.isServer, |Stream(q)|, n, k)]
    && (if AllThere(|Stream(q)|, n, k) then Joined(p, q, s) else s.phase != DataPhase)
  }

  lemma Entry01(p: Party, q: Party, n: nat, k: nat)
    requires Meet(p, q) && Accepts(p, q) && n <= |Stream(q)| && k < 2
    ensures Entry(p, q, n, k, At(p, q, n, k))
  {
    FirstSends(p);
    TwoSends(p);
    if k == 0 {
      At0(p, q, n);
    } else {
      At1(p, q, n);
    }
  }

  lemma Entry2(p: Party, q: Party, n: nat, k: nat)
    requires Meet(p, q) && Accepts(p, q) && 11 <= n <= |Stream(q)| && k == 2
    ensures Entry(p, q, n, k, At(p, q, n, k))
  {
    FirstSends(p);
    StreamParts(q, n);
    At2(p, q, n);
  }

  lemma Entry3(p: Party, q: Party, n: nat, k: nat)
    requires Meet(p, q) && Accepts(p, q) && Reached(p.isServer, |Stream(q)|, n, k) && k == 3
    ensures Entry(p, q, n, k, At(p, q, n, k))
  {
    FirstSends(p);
    if p.isServer {
      At3Server(p, q);
    } else {
      At3Client(p, q, n);
    }
  }

  /** After `n` octets and `k` acknowledgements in any order: what has been sent, and whether the
      handshake is over. */
  lemma Table(p: Party, q: Party, n: nat, k: nat)
    requires Meet(p, q) && Accepts(p, q) && Reached(p.isServer, |Stream(q)|, n, k)
    ensures Entry(p, q, n, k, At(p, q, n, k))
  {
    if k < 2 {
      Entry01(p, q, n, k);
    } else if k == 2 {
      Entry2(p, q, n, k);
    } else {
      Entry3(p, q, n, k);
    }
  }

  lemma WireSends(p: Party)
    ensures |Wire(AllSends(p)[..1])| == 11 && Wire(AllSends(p)[..1]) <= Stream(p)
    ensures |Wire(AllSends(p)[..2])| == 64 && Wire(AllSends(p)[..2]) <= Stream(p)
    ensures Wire(AllSends(p)[..3]) == Stream(p)
  {
    var all := AllSends(p);
    assert all[..1][..0] == [] && all[..2][..1] == all[..1] && all[..3][..2] == all[..2];
    assert Wire(all[..1]) == Wire([]) + Prelude() == Prelude();
    assert Wire(all[..2]) == Prelude() + Tail(p);
    assert Wire(all[..3]) == (Prelude() + Tail(p)) + ReadyFrame(p);
  }

  // --- The two together ---

  function Handlers(): Plant<H> { Plant(Session(), (s: H) => Wire(s.ops)) }

  /** A party opposite `q`: in the data phase, its application has been told of `q`. */
  function Facing(p: Party, q: Party): Side<H> {
    Side(Start(p), p.isServer, Stream(p), (s: H) => s.phase == DataPhase, (s: H) => Joined(p, q, s))
  }

  lemma EntryIsRow(p: Party, q: Party, n: nat, k: nat, s: H)
    requires Entry(p, q, n, k, s)
    ensures Row(Handlers(), Facing(p, q), |Stream(q)|, n, k, s)
  {
    WireSends(p);
  }

  lemma FacingTabled(p: Party, q: Party)
    requires Meet(p, q) && Accepts(p, q)
    ensures TabledSide(Handlers(), Facing(p, q), Facing(q, p))
  {
    StreamParts(p, 0);
    forall n: nat | n <= |Stream(q)| ensures Able(Start(p), Stream(q)[..n]) {
      StartAble(p.cfg, p.isServer, p.room, Stream(q)[..n]);
    }
    StartAble(p.cfg, p.isServer, p.room, []);
    forall n: nat, k: nat | n <= |Stream(q)| && Reached(p.isServer, |Stream(q)|, n, k)
      ensures Row(Handlers(), Facing(p, q), |Stream(q)|, n, k, Where(Handlers(), Facing(p, q), Facing(q, p), n, k))
    {
      Table(p, q, n, k);
      EntryIsRow(p, q, n, k, At(p, q, n, k));
    }
  }

  lemma SessionLawful()
    ensures Lawful(Session())
  {
    SessionJoins();
    SessionSwaps();
    SessionBalances();
  }

  /** The main result. Whatever the order and size of deliveries and however late the
      acknowledgements, a run has at most as many moves as there are octets and acknowledgements;
      it can always go on until both sides are in the data phase, and a side there has told its
      application of a completed handshake with the other's identity. A side's handshake ends with
      its last acknowledgement and the peer's last octet, not before. */
  lemma HandshakeCompletes(p: Party, q: Party, ms: seq<Move>)
    requires Pair(p, q) && Runs(Handlers(), Opening(Facing(p, q), Facing(q, p)), ms)
    ensures |ms| <= |Stream(p)| + |Stream(q)| + 6
    ensures var t := EndOf(Handlers(), Opening(Facing(p, q), Facing(q, p)), ms);
            && ((exists m :: Possible(Handlers(), t, m)) || (t.a.phase == DataPhase && t.b.phase == DataPhase))
            && (t.a.phase == DataPhase <==> AllThere(|Stream(q)|, t.aGot, t.aAcks))
            && (t.b.phase == DataPhase <==> AllThere(|Stream(p)|, t.bGot, t.bAcks))
            && (t.a.phase == DataPhase ==> Joined(p, q, t.a)) && (t.b.phase == DataPhase ==> Joined(q, p, t.b))
  {
    SessionLawful();
    FacingTabled(p, q);
    FacingTabled(q, p);
    EveryRunCompletes(Handlers(), Facing(p, q), Facing(q, p), ms);
  }
}
