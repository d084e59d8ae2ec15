/** A handler configured for NOISE_XX, reading what another such handler writes. */
module SecureSession {
  import opened Bytes
  import opened Frames
  import opened Framers
  import opened Commands
  import opened Greeting
  import opened NoiseXx
  import opened Mechanisms
  import opened Handler
  import opened HandlerSteps
  import opened HandlerRuns
  import opened SecureStreams

  /** NOISE_XX and nothing else, with the keys the role needs. Section 3 of the Noise Protocol
      Framework bounds every handshake message. */
  ghost predicate NoiseOnly(c: SecurityConfig, isServer: bool) {
    && !c.usePlain && c.noise.Some? && c.noise.value.localKey
    && (isServer || c.noise.value.remoteKey.Some?)
    && SmallTokens(c.noise.value.suite)
  }

  ghost predicate SmallTokens(suite: Suite) {
    forall t :: |suite.write(t)| <= NOISE_MAX_MESSAGE
  }

  /** The whole greeting of either role. */
  function Hello(isServer: bool): (g: Octets)
    ensures |g| == 64 && Prelude() <= g
  {
    Prelude() + V3Tail(NoiseName(), isServer)
  }

  /** What either role can have written at any time: plain tokens end where encryption begins, and
      only a complete set of them is followed by encrypted octets. */
  predicate Feasible(l: Layout, isServer: bool) {
    && l.ok && AllSized(l.tokens)
    && (|| (l.greeting == Prelude() && l.tokens == [] && l.secured == [])
        || (&& l.greeting == Hello(isServer)
            && |l.tokens| <= Writes(isServer)
            && (l.secured != [] ==> |l.tokens| == Writes(isServer))))
  }

  /** The phases after the security exchange. */
  predicate Established(p: Phase) {
    || p == ReadyClientSend || p == ReadyClientWaitServer || p == ReadyServerWaitClient || p == ReadyServerSend
    || p == DataPhase
  }

  predicate Stopped(p: Phase) { p == ClosingPhase || Final(p) }

  /** Tokens read so far by an end that has written `sent`, between rounds. */
  function GotWith(isServer: bool, sent: nat): nat { if isServer then sent else 0 }

  /** The peer's greeting and its first `k` tokens. */
  function Before(peer: Layout, isServer: bool, k: nat): Octets
    requires k <= |peer.tokens|
  {
    Hello(isServer) + EncodeAll(peer.tokens[..k])
  }

  /** What holds of any handler, working or stopped: its stream is feasible, and it is encrypted
      exactly from where the framer was changed. */
  ghost predicate Halted(lay: Reading, s: H) {
    var l := lay(s.ops);
    && NoiseOnly(s.cfg.security, s.isServer)
    && Feasible(l, s.isServer)
    && (s.framer.Plain? ==> l.secured == [])
    && (s.framer.Secure? ==> l.greeting == Hello(s.isServer) && |l.tokens| == Writes(s.isServer))
  }

  /** Up to the greeting, all that was received is in the two buffers. */
  ghost predicate Opening(lay: Reading, s: H, r: Octets) {
    var l := lay(s.ops);
    && Halted(lay, s) && s.framer == Plain(ReadHeader) && l.tokens == [] && s.greeting + s.acc == r
    && (if s.phase == SendSignature || s.phase == WaitPeerRevision then l.greeting == Prelude() && |s.greeting| <= 11
        else l.greeting == Hello(s.isServer) && |s.greeting| <= 64 && (s.phase == SendV3Tail || s.phase == WaitV3Greeting))
  }

  /** In the security exchange the plain parser stands behind whole tokens of the peer. */
  ghost predicate Exchanging(lay: Reading, s: H, r: Octets, peer: Layout) {
    var l := lay(s.ops);
    var k := GotWith(s.isServer, |l.tokens|);
    && Halted(lay, s) && s.phase == SecurityExchange && s.framer.Plain? && s.greeting == []
    && l.greeting == Hello(s.isServer)
    && s.mech.Some? && s.mech.value.NoiseM?
    && s.mech.value.noise.suite == s.cfg.security.noise.value.suite
    && Midway(s.mech.value.noise, s.isServer, |l.tokens|, k)
    && k <= |peer.tokens| && Before(peer, !s.isServer, k) <= r
    && StandsAt(s.framer.parser, s.cfg.maxMsgSize, s.acc, r[|Before(peer, !s.isServer, k)|..])
  }

  /** Where the peer's encrypted octets begin in what was received. */
  function Switch(peer: Layout, isServer: bool): Octets
    requires |peer.tokens| == Reads(isServer)
  {
    Before(peer, !isServer, Reads(isServer))
  }

  /** Afterwards exactly the peer's tokens were read in plain, and all that followed them went to
      the secure framer, block by block. */
  ghost predicate Secured(lay: Reading, s: H, r: Octets, peer: Layout) {
    && Halted(lay, s) && Established(s.phase) && s.framer.Secure?
    && |peer.tokens| == Reads(s.isServer) && Switch(peer, s.isServer) <= r
    && OpenedFrom(s.framer, s.acc, r[|Switch(peer, s.isServer)|..])
  }

  /** `r` is everything received, `peer` what the peer has written. */
  ghost predicate Fine(lay: Reading, s: H, r: Octets, peer: Layout) {
    if Stopped(s.phase) then Halted(lay, s)
    else if Established(s.phase) then Secured(lay, s, r, peer)
    else if s.phase == SecurityExchange then Exchanging(lay, s, r, peer)
    else Opening(lay, s, r)
  }

  ghost predicate Heard(r: Octets, peer: Layout, isServer: bool) {
    Feasible(peer, isServer) && r <= OctetsOf(peer)
  }

  /** One round keeps the handler in order, or ends it, and only adds to what was written. */
  ghost predicate RoundOk(lay: Reading, s: H, f: Flow, r: Octets, peer: Layout) {
    && Grows(lay(s.ops), lay(f.s.ops)) && f.s.isServer == s.isServer && f.s.cfg == s.cfg
    && if f.Fail? then Halted(lay, f.s) else Fine(lay, f.s, r, peer)
  }

  lemma FineHalts(lay: Reading, s: H, r: Octets, peer: Layout)
    requires Fine(lay, s, r, peer)
    ensures Halted(lay, s)
  {
  }

  // --- Sends ---

  lemma ErrorHalts(lay: Reading, s: H, e: ErrorKind)
    requires Lays(lay) && Halted(lay, s)
    ensures Halted(lay, ToError(s, e)) && lay(ToError(s, e).ops) == lay(s.ops)
  {
    CloseLays(lay, s.ops);
    var t := ToError(s, e);
    assert t.ops == s.ops || t.ops == WithClose(s.ops);
  }

  lemma CloseLays(lay: Reading, ops: seq<Blueprint>)
    requires Lays(lay)
    ensures lay(WithClose(ops)) == lay(ops)
  {
  }

  lemma AbortOk(lay: Reading, s: H, e: ErrorKind, r: Octets, peer: Layout)
    requires Lays(lay) && Halted(lay, s)
    ensures RoundOk(lay, s, Abort(s, e), r, peer)
  {
    ErrorHalts(lay, s, e);
  }

  lemma RoundAfter(lay: Reading, s: H, b: H, f: Flow, r: Octets, peer: Layout)
    requires Grows(lay(s.ops), lay(b.ops)) && b.isServer == s.isServer && b.cfg == s.cfg
    requires RoundOk(lay, b, f, r, peer)
    ensures RoundOk(lay, s, f, r, peer)
  {
  }

  lemma SizedSnoc(ms: seq<Msg>, m: Msg)
    requires AllSized(ms) && Sized(m)
    ensures AllSized(ms + [m])
  {
  }

  /** A plain token: the layout gets one token longer. */
  lemma TokenLays(lay: Reading, s: H, m: Msg)
    requires Lays(lay) && s.framer.Plain? && lay(s.ops).ok && lay(s.ops).secured == []
    ensures var t := SendCommand(s, m);
            && t.Some? && t.value == s.(ops := t.value.ops)
            && lay(t.value.ops) == lay(s.ops).(tokens := lay(s.ops).tokens + [m])
            && Grows(lay(s.ops), lay(t.value.ops))
  {
    EncodeAllSnoc([], m);
    assert [] + [m] == [m] && [] + EncodeFrame(m) == EncodeFrame(m);
    var b := Send(EncodeFrame(m), CommandFrame(m), false, false);
    ExtendGrows(lay(s.ops), b);
  }

  /** An encrypted send: only the encrypted octets grow. */
  lemma SecureLays(lay: Reading, ops: seq<Blueprint>, b: Blueprint)
    requires Lays(lay) && b.Send? && b.secure && lay(ops).ok
    ensures lay(ops + [b]) == lay(ops).(secured := lay(ops).secured + b.data)
    ensures Grows(lay(ops), lay(ops + [b]))
  {
  }

  // --- The greeting ---

  lemma PeerPrelude(peer: Layout, isServer: bool, r: Octets)
    requires Feasible(peer, isServer) && r <= OctetsOf(peer)
    ensures |r| >= 11 ==> r[..11] == Prelude()
    ensures |r| >= 64 ==> peer.greeting == Hello(isServer) && Hello(isServer) <= r
  {
  }

  /** A filled greeting buffer holds the first octets received. */
  lemma FillFront(s: H, target: nat, r: Octets)
    requires s.greeting + s.acc == r && |s.greeting| <= target
    ensures var f := Fill(s, target);
            && f.greeting + f.acc == r
            && (|f.greeting| >= target ==> |r| >= target && f.greeting == r[..target] && f.acc == r[target..])
            && (|f.greeting| < target ==> f.acc == [])
  {
  }

  lemma TailLays(lay: Reading, s: H)
    requires Lays(lay) && s.framer.Plain?
    requires var l := lay(s.ops); l.ok && l.greeting == Prelude() && l.tokens == [] && l.secured == []
    ensures var t := Emit(s, V3Tail(NoiseName(), s.isServer), Control);
            && lay(t.ops) == lay(s.ops).(greeting := Hello(s.isServer))
            && Grows(lay(s.ops), lay(t.ops))
  {
  }

  lemma OnRevisionSecure(lay: Reading, s: H, r: Octets, peer: Layout)
    requires Lays(lay) && Opening(lay, s, r) && s.phase == WaitPeerRevision
    ensures RoundOk(lay, s, OnRevision(s, Some(MAJOR)), r, peer)
  {
    TailLays(lay, s);
    assert Proposed(s.cfg.security, s.isServer) == NoiseName();
  }

  lemma PeerRevisionSecure(lay: Reading, s: H, r: Octets, peer: Layout)
    requires Lays(lay) && Opening(lay, s, r) && Heard(r, peer, !s.isServer) && s.phase == WaitPeerRevision
    ensures RoundOk(lay, s, ArmPeerRevision(s), r, peer)
  {
    PeerPrelude(peer, !s.isServer, r);
    FillOnlyMoves(s, PEEK_LENGTH);
    FillFront(s, PEEK_LENGTH, r);
    var f := Fill(s, PEEK_LENGTH);
    if |f.greeting| >= PEEK_LENGTH {
      assert f.greeting[..11] == Prelude();
      PreludePeeks([]);
      assert Prelude() + [] == Prelude();
      OnRevisionSecure(lay, f, r, peer);
    }
  }

  lemma HelloDecodes(isServer: bool)
    ensures DecodeV3(Hello(isServer)) == Some(V3Greeting(0, NoiseName(), isServer))
  {
    GreetingRoundTrip(NoiseName(), isServer, []);
    assert Hello(isServer) + [] == Hello(isServer);
  }

  lemma NoiseNegotiated(c: SecurityConfig, isServer: bool)
    requires NoiseOnly(c, isServer)
    ensures var m := Negotiate(c, isServer, NoiseName());
            && m.Some? && m.value.NoiseM? && m.value.noise.suite == c.noise.value.suite
            && Midway(m.value.noise, isServer, 0, 0)
  {
    MechanismNamesDiffer();
  }

  lemma OnHelloSecure(lay: Reading, s: H, r: Octets, peer: Layout)
    requires Halted(lay, s) && s.framer == Plain(ReadHeader) && s.phase == WaitV3Greeting
    requires lay(s.ops).greeting == Hello(s.isServer) && lay(s.ops).tokens == []
    requires Hello(!s.isServer) <= r && s.greeting == [] && s.acc == r[64..]
    ensures RoundOk(lay, s, OnGreeting(s, Some(V3Greeting(0, NoiseName(), !s.isServer))), r, peer)
  {
    NoiseNegotiated(s.cfg.security, s.isServer);
    assert peer.tokens[..0] == [];
    assert Before(peer, !s.isServer, 0) == Hello(!s.isServer);
  }

  lemma V3GreetingSecure(lay: Reading, s: H, r: Octets, peer: Layout)
    requires Lays(lay) && Opening(lay, s, r) && Heard(r, peer, !s.isServer) && s.phase == WaitV3Greeting
    ensures RoundOk(lay, s, ArmV3Greeting(s), r, peer)
  {
    PeerPrelude(peer, !s.isServer, r);
    FillOnlyMoves(s, GREETING_LENGTH);
    FillFront(s, GREETING_LENGTH, r);
    var f := Fill(s, GREETING_LENGTH);
    if |f.greeting| >= GREETING_LENGTH {
      assert f.greeting == Hello(!s.isServer);
      HelloDecodes(!s.isServer);
      assert f.greeting[64..] == [];
      OnHelloSecure(lay, f.(greeting := []), r, peer);
    }
  }

  // --- The security exchange ---

  /** Asking an unfinished mechanism for a token: the client's first goes out, nothing else. */
  lemma AskSecure(lay: Reading, s: H, r: Octets, peer: Layout)
    requires Lays(lay) && Exchanging(lay, s, r, peer)
    ensures var a := AskToken(s, s.mech.value);
            && a.ok && a.s == s.(mech := Some(a.mech), ops := a.s.ops)
            && Exchanging(lay, a.s, r, peer) && Grows(lay(s.ops), lay(a.s.ops))
            && (!s.isServer ==> |lay(a.s.ops).tokens| == 1)
  {
    var l := lay(s.ops);
    var n := s.mech.value.noise;
    AskMidway(n, s.isServer, |l.tokens|, GotWith(s.isServer, |l.tokens|));
    var p := ProduceNoise(n);
    if p.token.Some? {
      var m := Msg(p.token.value, false, true);
      assert p.token.value == n.suite.write(n.state.value.transcript);
      TokenLays(lay, s.(mech := Some(NoiseM(p.mech))), m);
      SizedSnoc(l.tokens, m);
    }
  }

  lemma AfterMidway(lay: Reading, s: H, m: Mechanism, acted: bool, r: Octets, peer: Layout)
    requires Exchanging(lay, s, r, peer) && s.mech == Some(m)
    ensures RoundOk(lay, s, AfterTokens(s, m, acted), r, peer)
  {
  }

  /** What follows the first `k` tokens of the peer. */
  lemma NextToken(peer: Layout, isServer: bool, k: nat, r: Octets) returns (more: Octets, rest: Octets)
    requires Feasible(peer, isServer) && r <= OctetsOf(peer) && k <= |peer.tokens| && k < Writes(isServer)
    requires Before(peer, isServer, k) <= r
    ensures k == |peer.tokens| ==> r[|Before(peer, isServer, k)|..] == []
    ensures k < |peer.tokens| ==> r[|Before(peer, isServer, k)|..] + more == EncodeFrame(peer.tokens[k]) + rest
    ensures k < |peer.tokens| ==> Before(peer, isServer, k + 1) == Before(peer, isServer, k) + EncodeFrame(peer.tokens[k])
  {
    var w := OctetsOf(peer);
    var b := Before(peer, isServer, k);
    more, rest := w[|r|..], [];
    PeerPrelude(peer, isServer, r);
    assert r + more == w;
    if k == |peer.tokens| {
      assert peer.tokens[..k] == peer.tokens;
      assert w == b;
    } else {
      var ts := peer.tokens;
      rest := EncodeAll(ts[k + 1..]) + peer.secured;
      assert ts == ts[..k] + ts[k..] && ts[k..][1..] == ts[k + 1..];
      EncodeAllConcat(ts[..k], ts[k..]);
      EncodeAllCons(ts[k..], peer.secured);
      TokenAfter(peer.greeting, EncodeAll(ts[..k]), EncodeAll(ts[k..]), peer.secured, EncodeFrame(ts[k]) + rest);
      Dropped(b, r, more, EncodeFrame(ts[k]) + rest);
      assert ts[..k + 1] == ts[..k] + [ts[k]];
      EncodeAllSnoc(ts[..k], ts[k]);
      Reassoc(Hello(isServer), EncodeAll(ts[..k]), EncodeFrame(ts[k]));
    }
  }

  lemma Reassoc(a: Octets, b: Octets, c: Octets)
    ensures a + (b + c) == (a + b) + c
  {
  }

  lemma TokenAfter(g: Octets, a: Octets, b: Octets, s: Octets, t: Octets)
    requires b + s == t
    ensures g + (a + b) + s == (g + a) + t
  {
  }

  lemma Dropped(b: Octets, r: Octets, more: Octets, t: Octets)
    requires b <= r && r + more == b + t
    ensures r[|b|..] + more == t
  {
    assert (r + more)[|b|..] == r[|b|..] + more;
    assert (b + t)[|b|..] == t;
  }

  lemma AfterFrame(b: Octets, r: Octets, frame: Octets, rest: Octets)
    requires b <= r && r[|b|..] == frame + rest
    ensures b + frame <= r && r[|b + frame|..] == rest
  {
  }

  /** A frame read in the exchange is the peer's next token, and the parser stands behind it. */
  lemma TokenRead(lay: Reading, s: H, r: Octets, peer: Layout, k: nat)
    requires Exchanging(lay, s, r, peer) && Heard(r, peer, !s.isServer) && k == GotWith(s.isServer, |lay(s.ops).tokens|)
    requires Parse(s.framer.parser, s.cfg.maxMsgSize, s.acc).res.Got?
    ensures var o := Parse(s.framer.parser, s.cfg.maxMsgSize, s.acc);
            && k < |peer.tokens| && o.state == ReadHeader && o.res == Got(peer.tokens[k])
            && Before(peer, !s.isServer, k + 1) <= r && o.rest == r[|Before(peer, !s.isServer, k + 1)|..]
  {
    var b := Before(peer, !s.isServer, k);
    var more, rest := NextToken(peer, !s.isServer, k, r);
    if k < |peer.tokens| {
      FindsFrame(s.framer.parser, s.cfg.maxMsgSize, s.acc, r[|b|..], more, peer.tokens[k], rest);
      var o := Parse(s.framer.parser, s.cfg.maxMsgSize, s.acc);
      AfterFrame(b, r, EncodeFrame(peer.tokens[k]), o.rest);
    }
  }

  /** The switch: with all tokens written and read, the octets at hand are the peer's first
      encrypted ones, and from here on both directions go through the secure framer. */
  lemma LeaveSecure(lay: Reading, s: H, n: NoiseMech, r: Octets, peer: Layout)
    requires Lays(lay) && Halted(lay, s) && s.framer.Plain? && s.phase == SecurityExchange
    requires Over(n)
    requires lay(s.ops).greeting == Hello(s.isServer) && |lay(s.ops).tokens| == Writes(s.isServer)
    requires |peer.tokens| == Reads(s.isServer) && Switch(peer, s.isServer) <= r
    requires s.acc == r[|Switch(peer, s.isServer)|..]
    ensures RoundOk(lay, s, LeaveSecurity(s, NoiseM(n)), r, peer)
  {
    var f := NoiseFramer(n).value;
    assert OpenedFrom(f, s.acc, s.acc);
    var t := s.(mech := None, framer := f, idSecurity := Or(s.idSecurity, n.verified), phase := ReadyClientSend);
    if !s.isServer {
      assert Secured(lay, t, r, peer);
      SecureReady(lay, t, ReadyClientSend, r, peer);
    }
  }

  /** Our own READY goes out encrypted. */
  lemma SecureReady(lay: Reading, s: H, next: Phase, r: Octets, peer: Layout)
    requires Lays(lay) && Secured(lay, s, r, peer) && Established(next)
    ensures RoundOk(lay, s, SendReady(s, next), r, peer)
  {
    SecureCommand(lay, s, OwnReady(s.cfg), r, peer);
    ReadySentSecure(lay, s, SendCommand(s, OwnReady(s.cfg)), next, r, peer);
  }

  lemma ReadySentSecure(lay: Reading, s: H, sent: Option<H>, next: Phase, r: Octets, peer: Layout)
    requires Secured(lay, s, r, peer) && Established(next)
    requires sent.Some? ==>
               var t := sent.value;
               && Secured(lay, t, r, peer) && Grows(lay(s.ops), lay(t.ops)) && t == s.(framer := t.framer, ops := t.ops)
    ensures RoundOk(lay, s, ReadySent(s, sent, next), r, peer)
  {
  }

  /** Any command of an established session goes out encrypted and disturbs nothing. */
  lemma SecureCommand(lay: Reading, s: H, m: Msg, r: Octets, peer: Layout)
    requires Lays(lay) && Secured(lay, s, r, peer)
    ensures SendCommand(s, m).Some? ==>
              var t := SendCommand(s, m).value;
              Secured(lay, t, r, peer) && Grows(lay(s.ops), lay(t.ops)) && t == s.(framer := t.framer, ops := t.ops)
  {
    WriteKeepsReader(s.framer, [m]);
    WriteOpens(s.framer, [m], s.acc, r[|Switch(peer, s.isServer)|..]);
    SecureEmit(lay, s, m, Write(s.framer, [m]), r, peer);
  }

  lemma SecureEmit(lay: Reading, s: H, m: Msg, w: Option<Written>, r: Octets, peer: Layout)
    requires Lays(lay) && Secured(lay, s, r, peer)
    requires w.Some? ==> OpenedFrom(w.value.framer, s.acc, r[|Switch(peer, s.isServer)|..])
    ensures EmitCommand(s, m, w).Some? ==>
              var t := EmitCommand(s, m, w).value;
              Secured(lay, t, r, peer) && Grows(lay(s.ops), lay(t.ops)) && t == s.(framer := t.framer, ops := t.ops)
  {
  }

  /** What the exchange looks like just after the peer's next token was taken. */
  ghost predicate Took(lay: Reading, s: H, n: NoiseMech, r: Octets, peer: Layout) {
    var l := lay(s.ops);
    var k := GotWith(s.isServer, |l.tokens|);
    && Halted(lay, s) && s.phase == SecurityExchange && s.framer == Plain(ReadHeader) && s.greeting == []
    && l.greeting == Hello(s.isServer)
    && n.suite == s.cfg.security.noise.value.suite
    && |l.tokens| == (if s.isServer then k else 1)
    && Midway(n, s.isServer, |l.tokens|, k)
    && k < |peer.tokens| <= Reads(s.isServer) && Before(peer, !s.isServer, k + 1) <= r
    && s.acc == r[|Before(peer, !s.isServer, k + 1)|..]
  }

  lemma AnswerLays(lay: Reading, s: H, n: NoiseMech)
    requires Lays(lay) && Halted(lay, s) && s.framer.Plain?
    requires var p := ProduceNoise(n); p.token.Some? ==> Sized(Msg(p.token.value, false, true))
    ensures var p := ProduceNoise(n);
            var a := AskToken(s, NoiseM(n));
            && a.ok == p.ok && a.mech == NoiseM(p.mech) && a.s == s.(mech := Some(a.mech), ops := a.s.ops)
            && Grows(lay(s.ops), lay(a.s.ops))
            && (p.ok ==> |lay(a.s.ops).tokens| == |lay(s.ops).tokens| + (if p.token.Some? then 1 else 0))
            && (!p.ok ==> a.s.ops == s.ops)
            && lay(a.s.ops) == lay(s.ops).(tokens := lay(a.s.ops).tokens) && AllSized(lay(a.s.ops).tokens)
  {
    var p := ProduceNoise(n);
    if p.ok && p.token.Some? {
      var m := Msg(p.token.value, false, true);
      TokenLays(lay, s.(mech := Some(NoiseM(p.mech))), m);
      SizedSnoc(lay(s.ops).tokens, m);
    }
  }

  /** A token written in answer to another is a message of the suite. */
  lemma AnswerSized(n: NoiseMech, isServer: bool, got: nat, token: Octets)
    requires Midway(n, isServer, if isServer then got else 1, got) && SmallTokens(n.suite)
    ensures var q := ProcessNoise(n, token); var p := ProduceNoise(q.mech);
            !q.action.Refused? && p.token.Some? ==> Sized(Msg(p.token.value, false, true)) && q.mech.suite == n.suite && p.mech.suite == n.suite
    ensures var q := ProcessNoise(n, token); ProduceNoise(q.mech).mech.suite == n.suite
  {
  }

  /** The token is taken and the answer, if there is one, is out. */
  ghost predicate Answered(lay: Reading, s: H, n: NoiseMech, k: nat, r: Octets, peer: Layout) {
    && Halted(lay, s) && s.phase == SecurityExchange && s.framer == Plain(ReadHeader) && s.greeting == []
    && s.mech == Some(NoiseM(n)) && lay(s.ops).greeting == Hello(s.isServer)
    && n.suite == s.cfg.security.noise.value.suite
    && k < |peer.tokens| <= Reads(s.isServer) && k < Reads(s.isServer)
    && Before(peer, !s.isServer, k + 1) <= r && s.acc == r[|Before(peer, !s.isServer, k + 1)|..]
  }

  lemma AnsweredMidway(lay: Reading, s: H, n: NoiseMech, r: Octets, peer: Layout)
    requires Answered(lay, s, n, 0, r, peer) && s.isServer && |lay(s.ops).tokens| == 1 && Midway(n, true, 1, 1)
    ensures RoundOk(lay, s, AfterTokens(s, NoiseM(n), true), r, peer)
  {
    AfterMidway(lay, s, NoiseM(n), true, r, peer);
  }

  lemma AnsweredOver(lay: Reading, s: H, n: NoiseMech, k: nat, r: Octets, peer: Layout)
    requires Lays(lay) && Answered(lay, s, n, k, r, peer)
    requires k + 1 == Reads(s.isServer) && |lay(s.ops).tokens| == Writes(s.isServer) && Over(n)
    ensures RoundOk(lay, s, AfterTokens(s, NoiseM(n), true), r, peer)
  {
    LeaveSecure(lay, s, n, r, peer);
  }

  lemma TookAnswers(lay: Reading, s: H, n: NoiseMech, token: Octets, r: Octets, peer: Layout)
    requires Lays(lay) && Took(lay, s, n, r, peer) && !ProcessNoise(n, token).action.Refused?
    ensures var k := GotWith(s.isServer, |lay(s.ops).tokens|);
            var q := ProcessNoise(n, token).mech;
            var a := AskToken(s.(mech := Some(NoiseM(q))), NoiseM(q));
            && Grows(lay(s.ops), lay(a.s.ops)) && a.s.isServer == s.isServer && a.s.cfg == s.cfg
            && (!a.ok ==> Halted(lay, a.s))
            && (a.ok ==>
                  && a.mech.NoiseM? && Answered(lay, a.s, a.mech.noise, k, r, peer)
                  && (if s.isServer && k == 0 then Midway(a.mech.noise, true, 1, 1) && |lay(a.s.ops).tokens| == 1
                      else Over(a.mech.noise) && |lay(a.s.ops).tokens| == Writes(s.isServer)))
  {
    var k := GotWith(s.isServer, |lay(s.ops).tokens|);
    GiveMidway(n, s.isServer, k, token);
    AnswerSized(n, s.isServer, k, token);
    var q := ProcessNoise(n, token).mech;
    AnswerLays(lay, s.(mech := Some(NoiseM(q))), q);
  }

  lemma GotTokenSecure(lay: Reading, s: H, n: NoiseMech, token: Octets, r: Octets, peer: Layout)
    requires Lays(lay) && Took(lay, s, n, r, peer)
    ensures RoundOk(lay, s, GotToken(s, ProcessToken(NoiseM(n), token)), r, peer)
  {
    var k := GotWith(s.isServer, |lay(s.ops).tokens|);
    var q := ProcessNoise(n, token);
    var t := s.(mech := Some(NoiseM(q.mech)));
    if !q.action.Refused? {
      TookAnswers(lay, s, n, token, r, peer);
      var a := AskToken(t, NoiseM(q.mech));
      if a.ok {
        if s.isServer && k == 0 {
          AnsweredMidway(lay, a.s, a.mech.noise, r, peer);
        } else {
          AnsweredOver(lay, a.s, a.mech.noise, k, r, peer);
        }
        RoundAfter(lay, s, a.s, AfterTokens(a.s, a.mech, true), r, peer);
      }
    }
  }

  lemma TakeHalts(lay: Reading, s: H)
    requires Halted(lay, s)
    ensures Halted(lay, Take(s, TryRead(s.framer, s.cfg.maxMsgSize, s.acc)))
  {
    TryReadConsumes(s.framer, s.cfg.maxMsgSize, s.acc);
  }

  /** What a plain read in the exchange comes to, in terms of the parser. */
  lemma PlainTake(s: H, parser: ParserState)
    requires s.framer == Plain(parser)
    ensures var o := Parse(parser, s.cfg.maxMsgSize, s.acc);
            TryRead(s.framer, s.cfg.maxMsgSize, s.acc) == ReadOut(Plain(o.state), o.rest, OfDecoded(o.res))
  {
  }

  lemma StillExchanging(lay: Reading, s: H, o: ParseOut, r: Octets, peer: Layout)
    requires Exchanging(lay, s, r, peer)
    requires o == Parse(s.framer.parser, s.cfg.maxMsgSize, s.acc) && o.res.NeedMore?
    ensures Exchanging(lay, s.(framer := Plain(o.state), acc := o.rest), r, peer)
  {
  }

  lemma NowTook(lay: Reading, s: H, o: ParseOut, r: Octets, peer: Layout)
    requires Exchanging(lay, s, r, peer) && Heard(r, peer, !s.isServer)
    requires !s.isServer ==> |lay(s.ops).tokens| == 1
    requires o == Parse(s.framer.parser, s.cfg.maxMsgSize, s.acc) && o.res.Got?
    ensures Took(lay, s.(framer := Plain(o.state), acc := o.rest), s.mech.value.noise, r, peer)
    ensures o.res == Got(peer.tokens[GotWith(s.isServer, |lay(s.ops).tokens|)])
  {
    var l := lay(s.ops);
    var k := GotWith(s.isServer, |l.tokens|);
    assert k < Reads(s.isServer) && |peer.tokens| <= Reads(s.isServer);
    TokenRead(lay, s, r, peer, k);
  }

  lemma OnTokenSecure(lay: Reading, s: H, acted: bool, o: ParseOut, r: Octets, peer: Layout)
    requires Lays(lay) && Exchanging(lay, s, r, peer) && Heard(r, peer, !s.isServer)
    requires !s.isServer ==> |lay(s.ops).tokens| == 1
    requires o == Parse(s.framer.parser, s.cfg.maxMsgSize, s.acc)
    ensures var t := s.(framer := Plain(o.state), acc := o.rest);
            RoundOk(lay, t, OnToken(t, s.mech.value, acted, OfDecoded(o.res)), r, peer)
  {
    var t := s.(framer := Plain(o.state), acc := o.rest);
    if o.res.NeedMore? {
      StillExchanging(lay, s, o, r, peer);
      AfterMidway(lay, t, s.mech.value, acted, r, peer);
    } else if o.res.Got? && o.res.msg.command {
      NowTook(lay, s, o, r, peer);
      GotTokenSecure(lay, t, s.mech.value.noise, o.res.msg.data, r, peer);
    } else {
      assert Halted(lay, t);
      AbortOk(lay, t, SecurityError, r, peer);
    }
  }

  lemma ReadTokenSecure(lay: Reading, s: H, acted: bool, r: Octets, peer: Layout)
    requires Lays(lay) && Exchanging(lay, s, r, peer) && Heard(r, peer, !s.isServer)
    requires !s.isServer ==> |lay(s.ops).tokens| == 1
    ensures RoundOk(lay, s, ReadToken(s, s.mech.value, acted), r, peer)
  {
    if s.acc == [] {
      AfterMidway(lay, s, s.mech.value, acted, r, peer);
    } else {
      PlainTake(s, s.framer.parser);
      var o := Parse(s.framer.parser, s.cfg.maxMsgSize, s.acc);
      OnTokenSecure(lay, s, acted, o, r, peer);
      var t := s.(framer := Plain(o.state), acc := o.rest);
      RoundAfter(lay, s, t, OnToken(t, s.mech.value, acted, OfDecoded(o.res)), r, peer);
    }
  }

  lemma SecurityRound(lay: Reading, s: H, r: Octets, peer: Layout)
    requires Lays(lay) && Exchanging(lay, s, r, peer) && Heard(r, peer, !s.isServer)
    ensures RoundOk(lay, s, ArmSecurity(s), r, peer)
  {
    AskSecure(lay, s, r, peer);
    var a := AskToken(s, s.mech.value);
    ReadTokenSecure(lay, a.s, a.sent, r, peer);
    RoundAfter(lay, s, a.s, ReadToken(a.s, a.mech, a.sent), r, peer);
  }

  // --- The established session ---

  /** Reading opens further blocks; nothing is written. */
  lemma SecureTake(lay: Reading, s: H, r: Octets, peer: Layout)
    requires Secured(lay, s, r, peer)
    ensures var o := TryRead(s.framer, s.cfg.maxMsgSize, s.acc);
            Halted(lay, Take(s, o)) && (!o.res.Failed? ==> Secured(lay, Take(s, o), r, peer))
  {
    TakeHalts(lay, s);
    TryReadConsumes(s.framer, s.cfg.maxMsgSize, s.acc);
    ReadOpens(s.framer, s.cfg.maxMsgSize, s.acc, r[|Switch(peer, s.isServer)|..]);
  }

  lemma EnterDataSecure(lay: Reading, s: H, r: Octets, peer: Layout)
    requires Secured(lay, s, r, peer)
    ensures RoundOk(lay, s, EnterData(s), r, peer)
  {
  }

  lemma OnReadySecure(lay: Reading, s: H, c: Option<Command>, r: Octets, peer: Layout)
    requires Lays(lay) && Secured(lay, s, r, peer)
    ensures RoundOk(lay, s, OnReady(s, c), r, peer)
  {
    if c.Some? && c.value.Ready? {
      var t := WithIdentity(s, c.value.props);
      assert Secured(lay, t, r, peer) && t.ops == s.ops;
      if s.phase == ReadyClientWaitServer {
        EnterDataSecure(lay, t, r, peer);
        RoundAfter(lay, s, t, EnterData(t), r, peer);
      } else {
        SecureReady(lay, t, ReadyServerSend, r, peer);
        RoundAfter(lay, s, t, SendReady(t, ReadyServerSend), r, peer);
      }
    } else {
      AbortOk(lay, s, ProtocolViolation, r, peer);
    }
  }

  lemma OnReadyFrameSecure(lay: Reading, s: H, res: ReadRes, r: Octets, peer: Layout)
    requires Lays(lay) && Halted(lay, s) && (!res.Failed? ==> Secured(lay, s, r, peer))
    ensures RoundOk(lay, s, OnReadyFrame(s, res), r, peer)
  {
    match res
    case Nothing =>
    case Failed => AbortOk(lay, s, ProtocolViolation, r, peer);
    case Frame(m) => OnReadySecure(lay, s, CommandOf(m), r, peer);
  }

  lemma ReadyRoundSecure(lay: Reading, s: H, r: Octets, peer: Layout)
    requires Lays(lay) && Secured(lay, s, r, peer)
    ensures RoundOk(lay, s, ArmReady(s), r, peer)
  {
    if s.acc != [] {
      SecureTake(lay, s, r, peer);
      var o := TryRead(s.framer, s.cfg.maxMsgSize, s.acc);
      OnReadyFrameSecure(lay, Take(s, o), o.res, r, peer);
      RoundAfter(lay, s, Take(s, o), OnReadyFrame(Take(s, o), o.res), r, peer);
    }
  }

  lemma OnCommandSecure(lay: Reading, s: H, c: Option<Command>, r: Octets, peer: Layout)
    requires Lays(lay) && Secured(lay, s, r, peer)
    ensures RoundOk(lay, s, OnCommand(s, c), r, peer)
  {
    if c.Some? && c.value.Ping? {
      SecureCommand(lay, s, PongMsg(c.value.context), r, peer);
    } else {
      AbortOk(lay, s, ProtocolViolation, r, peer);
    }
  }

  lemma HandleFrameSecure(lay: Reading, s: H, m: Msg, r: Octets, peer: Layout)
    requires Lays(lay) && Secured(lay, s, r, peer)
    ensures RoundOk(lay, s, HandleFrame(s, m), r, peer)
  {
    AbortOk(lay, s, ProtocolViolation, r, peer);
    AbortOk(lay, s, Internal, r, peer);
    OnCommandSecure(lay, s, CommandOf(m), r, peer);
  }

  lemma {:induction false} DataLoopSecure(lay: Reading, s: H, progress: bool, r: Octets, peer: Layout)
    requires Lays(lay) && Secured(lay, s, r, peer) && s.phase == DataPhase
    ensures RoundOk(lay, s, DataLoop(s, progress), r, peer)
    decreases |s.acc|, DecryptedLeft(s.framer), BodyPending(s.framer)
  {
    SecureTake(lay, s, r, peer);
    TryReadConsumes(s.framer, s.cfg.maxMsgSize, s.acc);
    var o := TryRead(s.framer, s.cfg.maxMsgSize, s.acc);
    var t := Take(s, o);
    if o.res.Failed? {
      AbortOk(lay, t, ProtocolViolation, r, peer);
    } else if o.res.Frame? {
      HandleFrameSecure(lay, t, o.res.msg, r, peer);
      HandleFrameKeeps(t, o.res.msg);
      var f := HandleFrame(t, o.res.msg);
      if f.Next? {
        DataLoopSecure(lay, f.s, true, r, peer);
        RoundAfter(lay, s, f.s, DataLoop(f.s, true), r, peer);
      }
    }
  }

  // --- The phase loop ---

  /** Phases in which the loop has something to do. */
  predicate Working(p: Phase) {
    || p == WaitPeerRevision || p == WaitV3Greeting || p == SecurityExchange
    || p == ReadyClientWaitServer || p == ReadyServerWaitClient || p == DataPhase
  }

  lemma ArmRests(lay: Reading, s: H, r: Octets, peer: Layout)
    requires Fine(lay, s, r, peer) && !Working(s.phase)
    ensures Arm(s) == Stop(s)
  {
  }

  lemma EarlyArm(lay: Reading, s: H, r: Octets, peer: Layout)
    requires Lays(lay) && Fine(lay, s, r, peer) && Heard(r, peer, !s.isServer)
    requires s.phase == WaitPeerRevision || s.phase == WaitV3Greeting || s.phase == SecurityExchange
    ensures RoundOk(lay, s, Arm(s), r, peer)
  {
    if s.phase == WaitPeerRevision {
      PeerRevisionSecure(lay, s, r, peer);
    } else if s.phase == WaitV3Greeting {
      V3GreetingSecure(lay, s, r, peer);
    } else {
      SecurityRound(lay, s, r, peer);
    }
  }

  lemma LateArm(lay: Reading, s: H, r: Octets, peer: Layout)
    requires Lays(lay) && Secured(lay, s, r, peer) && Working(s.phase)
    ensures RoundOk(lay, s, Arm(s), r, peer)
  {
    if s.phase == DataPhase {
      DataLoopSecure(lay, s, false, r, peer);
    } else {
      ReadyRoundSecure(lay, s, r, peer);
    }
  }

  lemma ArmSecure(lay: Reading, s: H, r: Octets, peer: Layout)
    requires Lays(lay) && Fine(lay, s, r, peer) && Heard(r, peer, !s.isServer)
    ensures RoundOk(lay, s, Arm(s), r, peer)
  {
    if !Working(s.phase) {
      ArmRests(lay, s, r, peer);
    } else if Established(s.phase) {
      LateArm(lay, s, r, peer);
    } else {
      EarlyArm(lay, s, r, peer);
    }
  }

  /** What a call leaves behind. */
  ghost predicate CallOk(lay: Reading, s: H, t: H, r: Octets, peer: Layout) {
    && Grows(lay(s.ops), lay(t.ops)) && t.isServer == s.isServer && t.cfg == s.cfg
    && Fine(lay, t, r, peer)
  }

  lemma ErrorOk(lay: Reading, s: H, e: ErrorKind, r: Octets, peer: Layout)
    requires Lays(lay) && Halted(lay, s)
    ensures CallOk(lay, s, ToError(s, e), r, peer)
  {
    ErrorHalts(lay, s, e);
  }

  lemma FailSettles(lay: Reading, s: H, f: Flow, r: Octets, peer: Layout)
    requires Lays(lay) && RoundOk(lay, s, f, r, peer) && f.Fail?
    ensures CallOk(lay, s, Settle(Done(f.s, Some(f.error))), r, peer)
  {
    if !Final(f.s.phase) {
      ErrorOk(lay, f.s, f.error, r, peer);
    }
  }

  /** The state a flow hands to what comes next. */
  lemma RoundSettles(lay: Reading, s: H, f: Flow, r: Octets, peer: Layout)
    requires Lays(lay) && RoundOk(lay, s, f, r, peer)
    ensures f.Fail? ==> CallOk(lay, s, Settle(Done(f.s, Some(f.error))), r, peer)
    ensures !f.Fail? ==> CallOk(lay, s, f.s, r, peer)
  {
    if f.Fail? {
      FailSettles(lay, s, f, r, peer);
    }
  }

  lemma CallAfter(lay: Reading, s: H, u: H, t: H, r: Octets, peer: Layout)
    requires CallOk(lay, s, u, r, peer) && CallOk(lay, u, t, r, peer)
    ensures CallOk(lay, s, t, r, peer)
  {
  }

  lemma OverdueSecure(lay: Reading, s: H, r: Octets, peer: Layout)
    requires Lays(lay) && Fine(lay, s, r, peer)
    ensures CallOk(lay, s, ToError(s, Timeout), r, peer)
  {
    FineHalts(lay, s, r, peer);
    ErrorOk(lay, s, Timeout, r, peer);
  }

  lemma {:induction false} ProcessSecure(lay: Reading, s: H, clock: Clock, r: Octets, peer: Layout)
    requires Lays(lay) && Fine(lay, s, r, peer) && Heard(r, peer, !s.isServer)
    ensures CallOk(lay, s, Process(s, clock), r, peer)
    decreases RankLeft(s), TokensLeft(s), |s.acc|, DecryptedLeft(s.framer), BodyPending(s.framer)
  {
    ProcessStep(s, clock);
    if Overdue(s, clock) {
      OverdueSecure(lay, s, r, peer);
    } else {
      var f := Arm(s);
      ArmSecure(lay, s, r, peer);
      RoundSettles(lay, s, f, r, peer);
      if f.Next? && Changed(s, f.s, f.progress) {
        ArmShrinks(s);
        ProcessSecure(lay, f.s, Tick(clock), r, peer);
        CallAfter(lay, s, f.s, Process(f.s, Tick(clock)), r, peer);
      }
    }
  }
}
