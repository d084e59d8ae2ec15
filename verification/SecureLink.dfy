/** Two handlers that run NOISE_XX over joined byte streams: each starts reading encrypted blocks at
    exactly the octet where the other starts writing them. */
module SecureLink {
  import opened Bytes
  import opened Frames
  import opened Framers
  import opened Greeting
  import opened Handler
  import opened HandlerSteps
  import opened SecureStreams
  import opened SecureSession

  // --- Every event on one side ---

  lemma Assoc(a: Octets, b: Octets, c: Octets)
    ensures (a + b) + c == a + (b + c)
  {
  }

  lemma DropMore(a: Octets, r: Octets, b: Octets)
    requires a <= r
    ensures a <= r + b && (r + b)[|a|..] == r[|a|..] + b
  {
  }

  /** More octets from the peer. */
  lemma FedFine(lay: Reading, s: H, r: Octets, peer: Layout, b: Octets)
    requires Fine(lay, s, r, peer)
    ensures Fine(lay, s.(acc := s.acc + b), r + b, peer)
  {
    if Stopped(s.phase) {
    } else if Established(s.phase) {
      DropMore(Switch(peer, s.isServer), r, b);
      OpenedMore(s.framer, s.acc, r[|Switch(peer, s.isServer)|..], b);
    } else if s.phase == SecurityExchange {
      var before := Before(peer, !s.isServer, GotWith(s.isServer, |lay(s.ops).tokens|));
      DropMore(before, r, b);
      StandsMore(s.framer.parser, s.cfg.maxMsgSize, s.acc, r[|before|..], b);
    } else {
      Assoc(s.greeting, s.acc, b);
    }
  }

  lemma ReadSecure(lay: Reading, s: H, chunk: Octets, clock: Clock, r: Octets, peer: Layout)
    requires Lays(lay) && Fine(lay, s, r, peer) && Heard(r + chunk, peer, !s.isServer)
    ensures CallOk(lay, s, ReadData(s, chunk, clock), r + chunk, peer)
  {
    if chunk == [] && !Final(s.phase) {
      FineHalts(lay, s, r, peer);
      ErrorOk(lay, s, ConnectionClosed, r + chunk, peer);
    } else {
      FedFine(lay, s, r, peer, chunk);
      ProcessSecure(lay, s.(acc := s.acc + chunk), clock, r + chunk, peer);
    }
  }

  lemma AppSecure(lay: Reading, s: H, w: Option<Written>, parts: seq<Msg>, queue: seq<seq<Msg>>, r: Octets, peer: Layout)
    requires Lays(lay) && Secured(lay, s, r, peer) && w == Write(s.framer, parts)
    ensures w.Some? ==>
              CallOk(lay, s, EmitApp(s.(framer := w.value.framer, queue := queue), w.value.wire, parts), r, peer)
  {
    if w.Some? {
      WriteKeepsReader(s.framer, parts);
      WriteOpens(s.framer, parts, s.acc, r[|Switch(peer, s.isServer)|..]);
      AppLays(lay, s.(framer := w.value.framer, queue := queue), w.value.wire, parts);
    }
  }

  lemma AppLays(lay: Reading, s: H, data: Octets, parts: seq<Msg>)
    requires Lays(lay) && lay(s.ops).ok && s.framer.Secure?
    ensures var t := EmitApp(s, data, parts);
            && Grows(lay(s.ops), lay(t.ops)) && t == s.(ops := t.ops, framed := t.framed)
            && lay(t.ops) == lay(s.ops).(secured := lay(t.ops).secured)
            && lay(s.ops).secured <= lay(t.ops).secured
  {
    if data != [] {
      SecureLays(lay, s.ops, Send(data, AppParts(parts), true, s.cfg.zeroCopy && |data| > ZC_SEND_THRESHOLD));
    }
  }

  lemma DrainSecure(lay: Reading, s: H, r: Octets, peer: Layout)
    requires Lays(lay) && Secured(lay, s, r, peer)
    ensures CallOk(lay, s, DrainOne(s), r, peer)
  {
    if s.queue != [] {
      ErrorOk(lay, s, Internal, r, peer);
      AppSecure(lay, s, Write(s.framer, s.queue[0]), s.queue[0], s.queue[1..], r, peer);
    }
  }

  lemma SubmitSecure(lay: Reading, s: H, parts: seq<Msg>, r: Octets, peer: Layout)
    requires Lays(lay) && Fine(lay, s, r, peer)
    ensures CallOk(lay, s, Submit(s, parts), r, peer)
  {
    if s.phase == DataPhase && s.queue == [] {
      AppSecure(lay, s, Write(s.framer, parts), parts, s.queue, r, peer);
    }
  }

  lemma PingSecure(lay: Reading, s: H, r: Octets, peer: Layout)
    requires Lays(lay) && Secured(lay, s, r, peer)
    ensures match SendCommand(s, PingMessage())
            case None => CallOk(lay, s, ToError(s, Internal), r, peer)
            case Some(u) => CallOk(lay, s, u.(pingSent := true), r, peer)
  {
    ErrorOk(lay, s, Internal, r, peer);
    SecureCommand(lay, s, PingMessage(), r, peer);
  }

  lemma PrepareData(lay: Reading, s: H, p: Poll, r: Octets, peer: Layout)
    requires Lays(lay) && Secured(lay, s, r, peer) && s.phase == DataPhase && !p.readIntent
    ensures CallOk(lay, s, Prepare(s, p), r, peer)
  {
    if s.queue != [] {
      DrainSecure(lay, s, r, peer);
    } else if s.waitingPong {
      ErrorOk(lay, s, Timeout, r, peer);
    } else {
      PingSecure(lay, s, r, peer);
    }
  }

  lemma ReadIntentOk(lay: Reading, s: H, r: Octets, peer: Layout)
    requires Lays(lay) && Fine(lay, s, r, peer)
    ensures CallOk(lay, s, s.(ops := s.ops + [StartRead]), r, peer)
  {
    assert lay(s.ops + [StartRead]) == lay(s.ops);
  }

  lemma PrepareSecure(lay: Reading, s: H, p: Poll, r: Octets, peer: Layout)
    requires Lays(lay) && Fine(lay, s, r, peer)
    ensures CallOk(lay, s, Prepare(s, p), r, peer)
  {
    if s.phase == DataPhase && !p.readIntent {
      PrepareData(lay, s, p, r, peer);
    } else if p.deadline && s.phase != DataPhase && !Final(s.phase) {
      FineHalts(lay, s, r, peer);
      ErrorOk(lay, s, Timeout, r, peer);
    } else {
      ReadIntentOk(lay, s, r, peer);
    }
  }

  lemma AckedFine(lay: Reading, s: H, r: Octets, peer: Layout)
    requires Fine(lay, s, r, peer) && s.phase != DataPhase && s.phase != ReadyServerSend
    ensures Fine(lay, s.(phase := AckPhase(s.phase)), r, peer)
  {
  }

  lemma ResumeSecure(lay: Reading, s: H, clock: Clock, r: Octets, peer: Layout)
    requires Lays(lay) && Fine(lay, s, r, peer) && Heard(r, peer, !s.isServer)
    ensures CallOk(lay, s, Resume(s, clock), r, peer)
  {
    ProcessSecure(lay, s, clock, r, peer);
  }

  lemma AnnouncedSecure(lay: Reading, s: H, clock: Clock, r: Octets, peer: Layout)
    requires Lays(lay) && Secured(lay, s, r, peer) && Heard(r, peer, !s.isServer)
    ensures CallOk(lay, s, Announced(Announce(s), clock), r, peer)
  {
    var a := Announce(s);
    assert Secured(lay, a.s, r, peer) && a.s.ops == s.ops;
    if a.ok {
      ResumeSecure(lay, a.s, clock, r, peer);
    } else {
      ErrorOk(lay, a.s, Internal, r, peer);
    }
  }

  lemma AckData(lay: Reading, s: H, c: Completion, clock: Clock, r: Octets, peer: Layout)
    requires Lays(lay) && Secured(lay, s, r, peer) && s.phase == DataPhase && c != Fatal
    ensures CallOk(lay, s, SendCompleted(s, c, clock), r, peer)
  {
    var t := if s.pingSent then s.(waitingPong := true, pingSent := false) else s;
    DrainSecure(lay, t, r, peer);
    assert SendCompleted(s, c, clock) == DrainOne(t);
  }

  lemma AckHandshake(lay: Reading, s: H, c: Completion, clock: Clock, r: Octets, peer: Layout)
    requires Lays(lay) && Fine(lay, s, r, peer) && Heard(r, peer, !s.isServer)
    requires s.phase != DataPhase && s.phase != ReadyServerSend && c != Fatal
    ensures CallOk(lay, s, SendCompleted(s, c, clock), r, peer)
  {
    AckedFine(lay, s, r, peer);
    ResumeSecure(lay, s.(phase := AckPhase(s.phase)), clock, r, peer);
  }

  lemma CompletedSecure(lay: Reading, s: H, c: Completion, clock: Clock, r: Octets, peer: Layout)
    requires Lays(lay) && Fine(lay, s, r, peer) && Heard(r, peer, !s.isServer)
    ensures CallOk(lay, s, SendCompleted(s, c, clock), r, peer)
  {
    if c == Fatal {
      FineHalts(lay, s, r, peer);
      ErrorOk(lay, s, IoError, r, peer);
    } else if s.phase == DataPhase {
      AckData(lay, s, c, clock, r, peer);
    } else if s.phase == ReadyServerSend {
      AnnouncedSecure(lay, s.(phase := DataPhase), clock, r, peer);
    } else {
      AckHandshake(lay, s, c, clock, r, peer);
    }
  }

  function ReadBy(e: Event): Octets { if e.Read? then e.chunk else [] }

  lemma ClosingOk(lay: Reading, s: H, p: Phase, queue: seq<seq<Msg>>, r: Octets, peer: Layout)
    requires Fine(lay, s, r, peer) && Stopped(p)
    ensures CallOk(lay, s, s.(phase := p, queue := queue), r, peer)
  {
  }

  lemma RoomOk(lay: Reading, s: H, n: nat, r: Octets, peer: Layout)
    requires Fine(lay, s, r, peer)
    ensures CallOk(lay, s, s.(room := s.room + n), r, peer)
  {
  }

  lemma OtherOk(lay: Reading, s: H, e: Event, r: Octets, peer: Layout)
    requires Lays(lay) && Fine(lay, s, r, peer) && (e.CloseAsked? || e.FdGone? || e.UpstreamDrained?)
    ensures CallOk(lay, s, Step(s, e), r, peer)
  {
    match e
    case CloseAsked => ClosingOk(lay, s, ClosingPhase, [], r, peer);
    case FdGone => ClosingOk(lay, s, ClosedPhase, s.queue, r, peer);
    case UpstreamDrained(n) => RoomOk(lay, s, n, r, peer);
  }

  lemma EventOk(lay: Reading, s: H, e: Event, r: Octets, peer: Layout)
    requires Lays(lay) && Fine(lay, s, r, peer) && Heard(r + ReadBy(e), peer, !s.isServer)
    ensures CallOk(lay, s, Step(s, e), r + ReadBy(e), peer)
  {
    assert !e.Read? ==> r + ReadBy(e) == r;
    match e
    case Read(chunk, clock) => ReadSecure(lay, s, chunk, clock, r, peer);
    case Completed(c, clock) => CompletedSecure(lay, s, c, clock, r, peer);
    case Polled(p) => PrepareSecure(lay, s, p, r, peer);
    case Submitted(parts) => SubmitSecure(lay, s, parts, r, peer);
    case _ => OtherOk(lay, s, e, r, peer);
  }

  /** The peer writes on; what this side has read of it stays what it was. */
  lemma PeerGrows(lay: Reading, s: H, r: Octets, peer: Layout, peer': Layout)
    requires Fine(lay, s, r, peer) && Grows(peer, peer') && Feasible(peer', !s.isServer)
    ensures Fine(lay, s, r, peer')
  {
    if s.phase == SecurityExchange {
      var k := GotWith(s.isServer, |lay(s.ops).tokens|);
      assert peer'.tokens[..k] == peer.tokens[..k];
    } else if Established(s.phase) {
      assert peer'.tokens == peer.tokens;
    }
  }

  // --- The two together ---

  /** What was sent in plain, and what was sent encrypted. */
  function PlainOctets(ops: seq<Blueprint>): Octets {
    if ops == [] then []
    else
      var last := ops[|ops| - 1];
      PlainOctets(ops[..|ops| - 1]) + (if last.Send? && !last.secure then last.data else [])
  }

  function SecureOctets(ops: seq<Blueprint>): Octets {
    if ops == [] then []
    else
      var last := ops[|ops| - 1];
      SecureOctets(ops[..|ops| - 1]) + (if last.Send? && last.secure then last.data else [])
  }

  lemma Grown(a: Octets, b: Octets, c: Octets)
    ensures b == [] ==> (a + b) + c == (a + c) + b
  {
  }

  lemma {:induction false} LayoutParts(ops: seq<Blueprint>)
    requires LayoutOf(ops).ok
    ensures PlainOctets(ops) == LayoutOf(ops).greeting + EncodeAll(LayoutOf(ops).tokens)
    ensures SecureOctets(ops) == LayoutOf(ops).secured
  {
    if ops != [] {
      LayoutParts(ops[..|ops| - 1]);
      var l, last := LayoutOf(ops[..|ops| - 1]), ops[|ops| - 1];
      if last.Send? && !last.secure {
        Grown(l.greeting, EncodeAll(l.tokens), last.data);
        if last.content.CommandFrame? {
          EncodeAllSnoc(l.tokens, last.content.msg);
          Assoc(l.greeting, EncodeAll(l.tokens), last.data);
        }
      }
    }
  }

  datatype Link = Link(a: H, b: H, aGot: Octets, bGot: Octets)

  datatype LinkEvent = OnA(e: Event) | OnB(e: Event)

  /** A side reads only what the other has sent, in order; anything else may happen any time. */
  predicate Possible(x: Link, e: LinkEvent) {
    match e
    case OnA(ev) => x.aGot + ReadBy(ev) <= Wire(x.b.ops)
    case OnB(ev) => x.bGot + ReadBy(ev) <= Wire(x.a.ops)
  }

  function StepLink(x: Link, e: LinkEvent): Link {
    match e
    case OnA(ev) => x.(a := Step(x.a, ev), aGot := x.aGot + ReadBy(ev))
    case OnB(ev) => x.(b := Step(x.b, ev), bGot := x.bGot + ReadBy(ev))
  }

  function RunLink(x: Link, es: seq<LinkEvent>): Link {
    if es == [] then x else StepLink(RunLink(x, es[..|es| - 1]), es[|es| - 1])
  }

  predicate Feasibly(x: Link, es: seq<LinkEvent>) {
    es != [] ==> Feasibly(x, es[..|es| - 1]) && Possible(RunLink(x, es[..|es| - 1]), es[|es| - 1])
  }

  ghost predicate SideOk(lay: Reading, s: H, r: Octets, w: H) {
    && Fine(lay, s, r, lay(w.ops)) && Heard(r, lay(w.ops), !s.isServer)
    && s.isServer != w.isServer
  }

  lemma SideSteps(lay: Reading, s: H, r: Octets, w: H, got: Octets, e: Event)
    requires Lays(lay) && SideOk(lay, s, r, w) && SideOk(lay, w, got, s)
    requires r + ReadBy(e) <= OctetsOf(lay(w.ops))
    ensures SideOk(lay, Step(s, e), r + ReadBy(e), w) && SideOk(lay, w, got, Step(s, e))
  {
    EventOk(lay, s, e, r, lay(w.ops));
    SideHeld(lay, s, Step(s, e), r + ReadBy(e), w, got);
  }

  lemma SideHeld(lay: Reading, s: H, t: H, r: Octets, w: H, got: Octets)
    requires CallOk(lay, s, t, r, lay(w.ops)) && Heard(r, lay(w.ops), !s.isServer)
    requires SideOk(lay, w, got, s)
    ensures SideOk(lay, t, r, w) && SideOk(lay, w, got, t)
  {
    FineHalts(lay, t, r, lay(w.ops));
    PeerGrows(lay, w, got, lay(s.ops), lay(t.ops));
  }

  ghost predicate LinkOk(lay: Reading, x: Link) {
    SideOk(lay, x.a, x.aGot, x.b) && SideOk(lay, x.b, x.bGot, x.a)
  }

  lemma StepLinkOk(x: Link, e: LinkEvent)
    requires LinkOk(LayoutOf, x) && Possible(x, e)
    ensures LinkOk(LayoutOf, StepLink(x, e))
  {
    LayoutLays();
    LayoutIsWire(x.a.ops);
    LayoutIsWire(x.b.ops);
    match e
    case OnA(ev) => SideSteps(LayoutOf, x.a, x.aGot, x.b, x.bGot, ev);
    case OnB(ev) => SideSteps(LayoutOf, x.b, x.bGot, x.a, x.aGot, ev);
  }

  lemma {:induction false} RunLinkOk(x: Link, es: seq<LinkEvent>)
    requires LinkOk(LayoutOf, x) && Feasibly(x, es)
    ensures LinkOk(LayoutOf, RunLink(x, es))
  {
    if es != [] {
      RunLinkOk(x, es[..|es| - 1]);
      StepLinkOk(RunLink(x, es[..|es| - 1]), es[|es| - 1]);
    }
  }

  function Fresh(p: Config, q: Config, isServer: bool, pRoom: nat, qRoom: nat): Link {
    Link(Connected(p, isServer, pRoom), Connected(q, !isServer, qRoom), [], [])
  }

  lemma StartLayout(cfg: Config, isServer: bool, room: nat)
    ensures LayoutOf(Connected(cfg, isServer, room).ops) == Layout(Prelude(), [], [], true)
  {
  }

  lemma FreshSide(cfg: Config, isServer: bool, room: nat, w: H)
    requires NoiseOnly(cfg.security, isServer)
    requires LayoutOf(w.ops) == Layout(Prelude(), [], [], true) && w.isServer != isServer
    ensures SideOk(LayoutOf, Connected(cfg, isServer, room), [], w)
  {
    StartLayout(cfg, isServer, room);
    var s := Connected(cfg, isServer, room);
    assert s.greeting + s.acc == [];
  }

  lemma FreshOk(p: Config, q: Config, isServer: bool, pRoom: nat, qRoom: nat)
    requires NoiseOnly(p.security, isServer) && NoiseOnly(q.security, !isServer)
    ensures LinkOk(LayoutOf, Fresh(p, q, isServer, pRoom, qRoom))
  {
    StartLayout(p, isServer, pRoom);
    StartLayout(q, !isServer, qRoom);
    FreshSide(p, isServer, pRoom, Connected(q, !isServer, qRoom));
    FreshSide(q, !isServer, qRoom, Connected(p, isServer, pRoom));
  }

  /** `s`, having received `r`, reads `w`'s stream with the framer that wrote it: after the security
      exchange its secure framer has been given exactly what follows `w`'s plain octets; during it,
      the plain parser stands inside them, and before their end once anything encrypted is sent. */
  ghost predicate Aligned(s: H, r: Octets, w: H) {
    && Wire(w.ops) == PlainOctets(w.ops) + SecureOctets(w.ops)
    && (w.framer.Plain? ==> SecureOctets(w.ops) == [])
    && (Established(s.phase) ==>
          && s.framer.Secure? && PlainOctets(w.ops) <= r
          && OpenedFrom(s.framer, s.acc, r[|PlainOctets(w.ops)|..]))
    && (s.phase == SecurityExchange ==>
          && s.framer.Plain?
          && exists at: nat ::
               && at <= |r| && at <= |PlainOctets(w.ops)|
               && (SecureOctets(w.ops) != [] ==> at < |PlainOctets(w.ops)|)
               && StandsAt(s.framer.parser, s.cfg.maxMsgSize, s.acc, r[at..]))
  }

  lemma {:induction false} EncodeGrows(ts: seq<Msg>, k: nat)
    requires k <= |ts|
    ensures |EncodeAll(ts[..k])| <= |EncodeAll(ts)|
    ensures k < |ts| ==> |EncodeAll(ts[..k])| < |EncodeAll(ts)|
  {
    assert ts == ts[..k] + ts[k..];
    EncodeAllConcat(ts[..k], ts[k..]);
    if k < |ts| {
      assert |EncodeFrame(ts[k..][0])| >= 2;
    }
  }

  lemma WriterAligned(w: H)
    requires Halted(LayoutOf, w)
    ensures Wire(w.ops) == PlainOctets(w.ops) + SecureOctets(w.ops)
    ensures w.framer.Plain? ==> SecureOctets(w.ops) == []
  {
    LayoutIsWire(w.ops);
    LayoutParts(w.ops);
  }

  lemma EstablishedAligned(s: H, r: Octets, w: H)
    requires Secured(LayoutOf, s, r, LayoutOf(w.ops)) && Feasible(LayoutOf(w.ops), !s.isServer)
    ensures PlainOctets(w.ops) <= r && OpenedFrom(s.framer, s.acc, r[|PlainOctets(w.ops)|..])
  {
    var peer := LayoutOf(w.ops);
    LayoutParts(w.ops);
    assert peer.tokens[..|peer.tokens|] == peer.tokens;
  }

  lemma FineAligned(s: H, r: Octets, w: H, got: Octets)
    requires SideOk(LayoutOf, s, r, w) && SideOk(LayoutOf, w, got, s)
    ensures Aligned(s, r, w)
  {
    FineHalts(LayoutOf, w, got, LayoutOf(s.ops));
    WriterAligned(w);
    if Established(s.phase) {
      EstablishedAligned(s, r, w);
    } else if s.phase == SecurityExchange {
      ExchangeAligned(s, r, w);
    }
  }

  lemma ExchangeAligned(s: H, r: Octets, w: H)
    requires Exchanging(LayoutOf, s, r, LayoutOf(w.ops)) && Heard(r, LayoutOf(w.ops), !s.isServer)
    ensures exists at: nat ::
              && at <= |r| && at <= |PlainOctets(w.ops)|
              && (SecureOctets(w.ops) != [] ==> at < |PlainOctets(w.ops)|)
              && StandsAt(s.framer.parser, s.cfg.maxMsgSize, s.acc, r[at..])
  {
    var peer := LayoutOf(w.ops);
    LayoutParts(w.ops);
    var k := GotWith(s.isServer, |LayoutOf(s.ops).tokens|);
    EncodeGrows(peer.tokens, k);
    PeerPrelude(peer, !s.isServer, r);
    var at := |Before(peer, !s.isServer, k)|;
    assert StandsAt(s.framer.parser, s.cfg.maxMsgSize, s.acc, r[at..]);
  }

  /** The main result. Two handlers of opposite roles with NOISE_XX configured, joined by their byte
      streams, in any run of reads, completions, polls, submissions, closes and faults: in both
      directions reader and writer change framers at the same octet. Nothing is asked of the
      cryptography. */
  lemma FramersAligned(p: Config, q: Config, isServer: bool, pRoom: nat, qRoom: nat, es: seq<LinkEvent>)
    requires NoiseOnly(p.security, isServer) && NoiseOnly(q.security, !isServer)
    requires Feasibly(Fresh(p, q, isServer, pRoom, qRoom), es)
    ensures var x := RunLink(Fresh(p, q, isServer, pRoom, qRoom), es);
            Aligned(x.a, x.aGot, x.b) && Aligned(x.b, x.bGot, x.a)
  {
    var start := Fresh(p, q, isServer, pRoom, qRoom);
    FreshOk(p, q, isServer, pRoom, qRoom);
    RunLinkOk(start, es);
    var x := RunLink(start, es);
    FineAligned(x.a, x.aGot, x.b, x.bGot);
    FineAligned(x.b, x.bGot, x.a, x.aGot);
  }
}
