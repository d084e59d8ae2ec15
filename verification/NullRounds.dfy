/** What the handler does, round by round, with the octets of a peer that also runs NULL. */
module NullRounds {
  import opened Bytes
  import opened Frames
  import opened Framers
  import opened Commands
  import opened Greeting
  import opened Mechanisms
  import opened Handler
  import opened HandlerSteps
  import opened Confluence

  // --- What a party sends ---

  datatype Party = Party(cfg: Config, isServer: bool, room: nat)

  function Start(p: Party): H { Connected(p.cfg, p.isServer, p.room) }

  function Tail(p: Party): (t: Octets)
    ensures |t| == 53
  {
    V3Tail(NullName(), p.isServer)
  }

  function ReadyFrame(p: Party): Octets { EncodeFrame(OwnReady(p.cfg)) }

  /** Everything a party sends until it is in the data phase. */
  function Stream(p: Party): Octets { (Prelude() + Tail(p)) + ReadyFrame(p) }

  function SentFirst(): Blueprint { Send(Prelude(), Control, false, false) }

  function SentTail(p: Party): Blueprint { Send(Tail(p), Control, false, false) }

  function SentReady(p: Party): Blueprint {
    Send(ReadyFrame(p), CommandFrame(OwnReady(p.cfg)), false, false)
  }

  /** The identity the peer learns: only one of 1 to 255 octets is announced. */
  function AnnouncedId(p: Party): Option<Octets> {
    if p.cfg.routingId.Some? && 1 <= |p.cfg.routingId.value| <= 255 then p.cfg.routingId else None
  }

  /** The party can take part: NULL security, a socket type name that fits a READY, and room for
      one event upstream. */
  predicate Fit(p: Party) {
    NullOnly(p.cfg.security) && |p.cfg.socketType| <= 255 && p.room > 0
  }

  /** `p` takes a READY of the size `q` sends. */
  predicate Accepts(p: Party, q: Party) { Admits(p.cfg.maxMsgSize, |OwnReady(q.cfg).data|) }

  lemma AsciiFits(s: string, o: Octets)
    requires IsAscii(s) && o == Ascii(s)
    ensures |o| == |s| && ValidUtf8(o)
  {
    AsciiIsUtf8(o);
  }

  lemma NamesDiffer()
    ensures SocketTypeName() != IdentityName()
  {
    assert |SocketTypeName()| == 11 && |IdentityName()| == 8;
  }

  lemma SocketTypeFits(o: Octets)
    requires o == SocketTypeName()
    ensures |o| <= 255 && ValidUtf8(o)
  {
    AsciiFits("Socket-Type", o);
  }

  lemma IdentityFits(o: Octets)
    requires o == IdentityName()
    ensures |o| <= 255 && ValidUtf8(o)
  {
    AsciiFits("Identity", o);
  }

  lemma ListFits(ps: seq<Property>, kind: Property, id: Property)
    requires Writable(kind) && (ps == [kind] || (Writable(id) && (ps == [id, kind] || ps == [kind, id])))
    ensures 1 <= |ps| <= 2 && forall i :: 0 <= i < |ps| ==> Writable(ps[i])
  {
  }

  lemma PropertiesFit(p: Party)
    requires |p.cfg.socketType| <= 255
    ensures var ps := ReadyProperties(p.cfg); 1 <= |ps| <= 2 && forall i :: 0 <= i < |ps| ==> Writable(ps[i])
  {
    SocketTypeFits(SocketTypeName());
    IdentityFits(IdentityName());
    var id := Property(IdentityName(), if p.cfg.routingId.Some? then p.cfg.routingId.value else []);
    ListFits(ReadyProperties(p.cfg), Property(SocketTypeName(), p.cfg.socketType), id);
  }

  /** The peer reads the announced identity, if any, out of our READY. */
  lemma ReadyTells(p: Party)
    requires |p.cfg.socketType| <= 255
    ensures var c := CommandOf(OwnReady(p.cfg));
            && c.Some? && c.value.Ready?
            && (AnnouncedId(p).None? ==> IdentityName() !in c.value.props)
            && (AnnouncedId(p).Some? ==>
                  IdentityName() in c.value.props && c.value.props[IdentityName()] == AnnouncedId(p).value)
  {
    NamesDiffer();
    var ps := ReadyProperties(p.cfg);
    PropertiesFit(p);
    ReadyRoundTrip(ps);
    TwoProperties(ps);
  }

  lemma TwoProperties(ps: seq<Property>)
    requires 1 <= |ps| <= 2
    ensures |ps| == 1 ==> MeaningOf(ps, map[]) == map[ps[0].name := ps[0].value]
    ensures |ps| == 2 ==> MeaningOf(ps, map[]) == map[ps[0].name := ps[0].value][ps[1].name := ps[1].value]
  {
    if |ps| == 2 {
      var one: Properties := map[ps[0].name := ps[0].value];
      assert MeaningOf(ps[1..], one) == MeaningOf(ps[1..][1..], one[ps[1].name := ps[1].value]);
    }
  }

  lemma {:induction false} WriteSize(ps: seq<Property>)
    requires forall i :: 0 <= i < |ps| ==> |ps[i].name| <= 255 && |ps[i].value| <= 255
    ensures |WriteProperties(ps)| <= 1000 * |ps|
  {
    if ps != [] {
      WriteSize(ps[1..]);
    }
  }

  lemma PropertiesSmall(p: Party)
    requires |p.cfg.socketType| <= 255
    ensures var ps := ReadyProperties(p.cfg);
            |ps| <= 2 && forall i :: 0 <= i < |ps| ==> |ps[i].name| <= 255 && |ps[i].value| <= 255
  {
  }

  lemma ReadySized(p: Party)
    requires |p.cfg.socketType| <= 255
    ensures Sized(OwnReady(p.cfg))
  {
    PropertiesSmall(p);
    WriteSize(ReadyProperties(p.cfg));
    assert |OwnReady(p.cfg).data| <= 6 + 2000;
  }

  // --- Rounds ---

  lemma FillPrelude(x: H)
    requires x.greeting == []
    ensures |x.acc| < 11 ==> Fill(x, 11) == x.(greeting := x.acc, acc := [])
    ensures Prelude() <= x.acc ==> Fill(x, 11) == x.(greeting := Prelude(), acc := x.acc[11..])
  {
  }

  lemma OwnMajor()
    ensures PeekRevision(Prelude()[..11]) == Some(MAJOR)
  {
  }

  lemma RevisionRound(x: H)
    requires x.phase == WaitPeerRevision && x.greeting == [] && x.framer.Plain?
    ensures |x.acc| < 11 ==> Arm(x) == Stop(x.(greeting := x.acc, acc := []))
    ensures Prelude() <= x.acc && NullOnly(x.cfg.security) ==>
              Arm(x) == Next(x.(greeting := Prelude(), acc := x.acc[11..], phase := SendV3Tail,
                                ops := x.ops + [Send(V3Tail(NullName(), x.isServer), Control, false, false)]), true)
  {
    FillPrelude(x);
    OwnMajor();
    if Prelude() <= x.acc && NullOnly(x.cfg.security) {
      assert Arm(x) == OnRevision(Fill(x, 11), Some(MAJOR));
    }
  }

  lemma FillTail(x: H, tail: Octets)
    requires x.greeting == Prelude()
    ensures |x.acc| < 53 ==> Fill(x, 64) == x.(greeting := Prelude() + x.acc, acc := [])
    ensures |tail| == 53 && tail <= x.acc ==> Fill(x, 64) == x.(greeting := Prelude() + tail, acc := x.acc[53..])
  {
  }

  lemma NullTail(asServer: bool)
    ensures DecodeV3(Prelude() + V3Tail(NullName(), asServer)) == Some(V3Greeting(0, NullName(), asServer))
  {
    GreetingRoundTrip(NullName(), asServer, []);
    var g := Prelude() + V3Tail(NullName(), asServer);
    assert g + [] == g;
  }

  lemma GreetingRound(x: H)
    requires x.phase == WaitV3Greeting && x.greeting == Prelude()
    ensures |x.acc| < 53 ==> Arm(x) == Stop(x.(greeting := Prelude() + x.acc, acc := []))
    ensures V3Tail(NullName(), !x.isServer) <= x.acc && NullOnly(x.cfg.security) ==>
              Arm(x) == Next(x.(greeting := [], acc := x.acc[53..], version := Some(V3(0)),
                                mech := Some(NullMech), phase := SecurityExchange), true)
  {
    var tail := V3Tail(NullName(), !x.isServer);
    FillTail(x, tail);
    if tail <= x.acc && NullOnly(x.cfg.security) {
      NullTail(!x.isServer);
      var g := Prelude() + tail;
      assert g[64..] == [];
      assert Fill(x, 64).greeting == g;
      assert Arm(x) == OnGreeting(Fill(x, 64).(greeting := []), Some(V3Greeting(0, NullName(), !x.isServer)));
    }
  }

  lemma OneFrame(m: Msg)
    ensures EncodeAll([m]) == EncodeFrame(m)
  {
  }

  lemma SendReadyRound(x: H, next: Phase)
    requires x.framer.Plain?
    ensures SendReady(x, next) ==
            Next(x.(phase := next,
                    ops := x.ops + [Send(EncodeFrame(OwnReady(x.cfg)), CommandFrame(OwnReady(x.cfg)), false, false)]), true)
  {
    OneFrame(OwnReady(x.cfg));
  }

  lemma NullRound(x: H)
    requires x.phase == SecurityExchange && x.mech == Some(NullMech) && x.framer == Plain(ReadHeader) && x.idSecurity.None?
    ensures x.isServer ==> Arm(x) == Next(x.(mech := None, phase := ReadyServerWaitClient), true)
    ensures !x.isServer ==>
              Arm(x) == Next(x.(mech := None, phase := ReadyClientSend,
                                ops := x.ops + [Send(EncodeFrame(OwnReady(x.cfg)), CommandFrame(OwnReady(x.cfg)), false, false)]), true)
  {
    SendReadyRound(x.(mech := None, phase := ReadyClientSend), ReadyClientSend);
  }

  /** The greeting is whole: the security exchange is entered and left in the same call. */
  lemma GreetingThenNull(x: H)
    requires x.phase == WaitV3Greeting && x.greeting == Prelude() && NullOnly(x.cfg.security)
    requires V3Tail(NullName(), !x.isServer) <= x.acc
    requires x.framer == Plain(ReadHeader) && x.idSecurity.None? && x.mech.None?
    ensures var t := x.(greeting := [], acc := x.acc[53..], version := Some(V3(0)));
            Process(x, Never) ==
              if x.isServer then Process(t.(phase := ReadyServerWaitClient), Never)
              else t.(phase := ReadyClientSend,
                      ops := x.ops + [Send(EncodeFrame(OwnReady(x.cfg)), CommandFrame(OwnReady(x.cfg)), false, false)])
  {
    GreetingRound(x);
    ProcessRound(x);
    var y := Arm(x).s;
    NullRound(y);
    ProcessRound(y);
    if !x.isServer {
      RestsSending(Arm(y).s);
    }
  }

  lemma RestsSending(x: H)
    requires Sending(x.phase)
    ensures Process(x, Never) == x
  {
  }

  /** Part of a READY: the handler waits for the rest. */
  lemma PartReady(x: H, q: Party)
    requires x.phase == ReadyServerWaitClient || x.phase == ReadyClientWaitServer
    requires x.framer == Plain(ReadHeader) && |q.cfg.socketType| <= 255
    requires x.acc < ReadyFrame(q) && Admits(x.cfg.maxMsgSize, |OwnReady(q.cfg).data|)
    ensures var f := Arm(x); f.Stop? && f.s == x.(framer := f.s.framer, acc := f.s.acc)
  {
    ReadySized(q);
    var k := |x.acc|;
    assert ReadyFrame(q)[..k] == x.acc;
    ProperPrefixWaits(OwnReady(q.cfg), x.cfg.maxMsgSize, k);
  }

  lemma OversizeTaken(x: H, q: Party)
    requires x.framer == Plain(ReadHeader) && |q.cfg.socketType| <= 255
    requires x.acc <= ReadyFrame(q) && !Admits(x.cfg.maxMsgSize, |OwnReady(q.cfg).data|)
    ensures var o := TryRead(x.framer, x.cfg.maxMsgSize, x.acc);
            && !o.res.Frame?
            && (x.acc == ReadyFrame(q) ==> o.res.Failed? && x.acc != [])
  {
    ReadySized(q);
    OversizePartRefused(OwnReady(q.cfg), x.cfg.maxMsgSize, x.acc);
    OversizeRefused(OwnReady(q.cfg), x.cfg.maxMsgSize, []);
    assert ReadyFrame(q) + [] == ReadyFrame(q) && |ReadyFrame(q)| > 0;
  }

  lemma NoFrameRead(x: H)
    requires x.phase == ReadyServerWaitClient || x.phase == ReadyClientWaitServer
    requires !TryRead(x.framer, x.cfg.maxMsgSize, x.acc).res.Frame?
    ensures var f := Arm(x);
            || (f.Stop? && f.s == x.(framer := f.s.framer, acc := f.s.acc))
            || (f.Fail? && f.s.phase == ErrorPhase && f.s.ops == WithClose(x.ops))
    ensures x.acc != [] && TryRead(x.framer, x.cfg.maxMsgSize, x.acc).res.Failed? ==> Arm(x).Fail?
  {
  }

  /** A READY above the size limit is never taken: any part of it leaves the handler waiting or in
      the error phase, and the whole of it in the error phase. */
  lemma OversizeReady(x: H, q: Party)
    requires x.phase == ReadyServerWaitClient || x.phase == ReadyClientWaitServer
    requires x.framer == Plain(ReadHeader) && |q.cfg.socketType| <= 255
    requires x.acc <= ReadyFrame(q) && !Admits(x.cfg.maxMsgSize, |OwnReady(q.cfg).data|)
    ensures var f := Arm(x);
            || (f.Stop? && f.s == x.(framer := f.s.framer, acc := f.s.acc) && x.acc < ReadyFrame(q))
            || (f.Fail? && f.s.phase == ErrorPhase && f.s.ops == WithClose(x.ops))
  {
    OversizeTaken(x, q);
    NoFrameRead(x);
  }

  function Learned(x: H, q: Party): H {
    if AnnouncedId(q).Some? then x.(idReady := AnnouncedId(q), acc := []) else x.(acc := [])
  }

  lemma OnPeerReady(x: H, q: Party)
    requires |q.cfg.socketType| <= 255
    ensures var c := CommandOf(OwnReady(q.cfg));
            c.Some? && c.value.Ready? && WithIdentity(x.(acc := []), c.value.props) == Learned(x, q)
  {
    ReadyTells(q);
  }

  lemma ReadyTaken(x: H, q: Party)
    requires x.framer == Plain(ReadHeader) && |q.cfg.socketType| <= 255
    requires x.acc == ReadyFrame(q) && Admits(x.cfg.maxMsgSize, |OwnReady(q.cfg).data|)
    ensures TryRead(x.framer, x.cfg.maxMsgSize, x.acc) == ReadOut(Plain(ReadHeader), [], Frame(OwnReady(q.cfg)))
  {
    ReadySized(q);
    FrameRoundTrip(OwnReady(q.cfg), x.cfg.maxMsgSize, []);
    assert ReadyFrame(q) + [] == ReadyFrame(q);
  }

  /** The whole READY: the handler learns the identity and goes on. */
  lemma WholeReady(x: H, q: Party)
    requires x.phase == ReadyServerWaitClient || x.phase == ReadyClientWaitServer
    requires x.framer == Plain(ReadHeader) && |q.cfg.socketType| <= 255
    requires x.acc == ReadyFrame(q) && Admits(x.cfg.maxMsgSize, |OwnReady(q.cfg).data|)
    ensures x.phase == ReadyServerWaitClient ==> Arm(x) == SendReady(Learned(x, q), ReadyServerSend)
    ensures x.phase == ReadyClientWaitServer ==> Arm(x) == EnterData(Learned(x, q))
  {
    ReadyTaken(x, q);
    OnPeerReady(x, q);
    assert |x.acc| > 0;
    var o := TryRead(x.framer, x.cfg.maxMsgSize, x.acc);
    assert Take(x, o) == x.(acc := []);
    assert Arm(x) == OnReady(x.(acc := []), CommandOf(OwnReady(q.cfg)));
  }
}
