/** Two handlers that run NOISE_XX over joined byte streams: whatever happens, the application at
    one end has been told a prefix of what the application at the other end submitted. */
module SecureRuns {
  import opened Bytes
  import opened Frames
  import opened Framers
  import opened Greeting
  import opened Handler
  import opened HandlerSteps
  import HandlerRuns
  import opened SecureStreams
  import opened SecureSession
  import opened SecureLink
  import opened SecureBooks
  import opened SecureAccounts
  import opened SecureDelivery

  // --- Rounds and calls ---

  lemma EarlyArmGood(v: View, k: Case, good: Account -> bool, s: H, r: Octets, peer: Layout)
    requires Views(v) && Laws(k, good) && Fits(k, s, peer) && Fine(v.lay, s, r, peer) && Heard(r, peer, !s.isServer) && good(Acc(v, s))
    requires s.phase == WaitPeerRevision || s.phase == WaitV3Greeting || s.phase == SecurityExchange
    ensures good(FlowAcc(v, Arm(s)))
  {
    if s.phase == WaitPeerRevision {
      PeerRevisionGood(v, k, good, s, r, peer);
    } else if s.phase == WaitV3Greeting {
      V3GreetingGood(v, k, good, s, r, peer);
    } else {
      SecurityRoundGood(v, k, good, s, r, peer);
    }
  }

  lemma LateArmGood(v: View, k: Case, good: Account -> bool, s: H, r: Octets, peer: Layout)
    requires Views(v) && Laws(k, good) && Fits(k, s, peer) && Secured(v.lay, s, r, peer) && Heard(r, peer, !s.isServer) && good(Acc(v, s))
    requires Working(s.phase)
    ensures good(FlowAcc(v, Arm(s)))
  {
    if s.phase == DataPhase {
      DataLoopGood(v, k, good, s, false, r, peer);
    } else {
      ReadyRoundGood(v, k, good, s, r, peer);
    }
  }

  lemma ArmGood(v: View, k: Case, good: Account -> bool, s: H, r: Octets, peer: Layout)
    requires Views(v) && Laws(k, good) && Fits(k, s, peer) && Fine(v.lay, s, r, peer) && Heard(r, peer, !s.isServer) && good(Acc(v, s))
    ensures good(FlowAcc(v, Arm(s)))
  {
    if !Working(s.phase) {
      ArmRests(v.lay, s, r, peer);
    } else if Established(s.phase) {
      LateArmGood(v, k, good, s, r, peer);
    } else {
      EarlyArmGood(v, k, good, s, r, peer);
    }
  }

  lemma SettleAcc(v: View, f: Flow)
    requires Views(v) && f.Fail?
    ensures Acc(v, Settle(Done(f.s, Some(f.error)))) == FlowAcc(v, f)
  {
    ErrorAcc(v, f.s, f.error);
  }

  lemma ErrorGood(v: View, k: Case, good: Account -> bool, s: H, e: ErrorKind)
    requires Views(v) && Laws(k, good) && good(Acc(v, s))
    ensures good(Acc(v, ToError(s, e)))
  {
    ErrorAcc(v, s, e);
    UseHalt(k, good, Acc(v, s));
  }

  lemma {:induction false} ProcessGood(v: View, k: Case, good: Account -> bool, s: H, clock: Clock, r: Octets, peer: Layout)
    requires Views(v) && Laws(k, good) && Fits(k, s, peer) && Fine(v.lay, s, r, peer) && Heard(r, peer, !s.isServer) && good(Acc(v, s))
    ensures good(Acc(v, Process(s, clock)))
    decreases RankLeft(s), TokensLeft(s), |s.acc|, DecryptedLeft(s.framer), BodyPending(s.framer)
  {
    ProcessStep(s, clock);
    if Overdue(s, clock) {
      ErrorGood(v, k, good, s, Timeout);
    } else {
      var f := Arm(s);
      ArmGood(v, k, good, s, r, peer);
      ArmSecure(v.lay, s, r, peer);
      RoundSettles(v.lay, s, f, r, peer);
      if f.Fail? {
        SettleAcc(v, f);
      } else if f.Next? && Changed(s, f.s, f.progress) {
        ArmShrinks(s);
        ProcessGood(v, k, good, f.s, Tick(clock), r, peer);
      }
    }
  }

  // --- Every event ---

  lemma ReadDataGood(v: View, k: Case, good: Account -> bool, s: H, chunk: Octets, clock: Clock, r: Octets, peer: Layout)
    requires Views(v) && Laws(k, good) && Fits(k, s, peer) && Fine(v.lay, s, r, peer) && Heard(r + chunk, peer, !s.isServer) && good(Acc(v, s))
    ensures good(Acc(v, ReadData(s, chunk, clock)))
  {
    if chunk == [] && !Final(s.phase) {
      ErrorGood(v, k, good, s, ConnectionClosed);
      var u := ToError(s, ConnectionClosed);
      Silent(v, u.events, Fault(ConnectionClosed));
      assert Acc(v, TrySend(u, Fault(ConnectionClosed)).s) == Acc(v, u);
    } else {
      FedFine(v.lay, s, r, peer, chunk);
      var x := s.(acc := s.acc + chunk);
      assert Acc(v, x) == Acc(v, s);
      ProcessGood(v, k, good, x, clock, r + chunk, peer);
    }
  }

  lemma WrittenGood(v: View, k: Case, good: Account -> bool, s: H, parts: seq<Msg>, queue: seq<seq<Msg>>)
    requires Views(v) && Laws(k, good) && good(Acc(v, s)) && s.framer.Secure? && v.lay(s.ops).ok && Write(s.framer, parts).Some?
    ensures var w := Write(s.framer, parts).value;
            good(Acc(v, EmitApp(s.(framer := w.framer, queue := queue), w.wire, parts)))
  {
    AppAcc(v, s, parts, queue);
    UseSeal(k, good, Acc(v, s), parts, true);
  }

  lemma DrainGood(v: View, k: Case, good: Account -> bool, s: H)
    requires Views(v) && Laws(k, good) && good(Acc(v, s)) && s.framer.Secure? && v.lay(s.ops).ok
    ensures good(Acc(v, DrainOne(s)))
  {
    if s.queue != [] {
      ErrorGood(v, k, good, s, Internal);
      if Write(s.framer, s.queue[0]).Some? {
        WrittenGood(v, k, good, s, s.queue[0], s.queue[1..]);
      }
    }
  }

  lemma SubmitGood(v: View, k: Case, good: Account -> bool, s: H, parts: seq<Msg>, r: Octets, peer: Layout)
    requires Views(v) && Laws(k, good) && Fine(v.lay, s, r, peer) && good(Acc(v, s))
    ensures good(Acc(v, Submit(s, parts)))
  {
    assert Acc(v, s.(queue := [parts])) == Acc(v, s) && Acc(v, s.(queue := s.queue + [parts])) == Acc(v, s);
    if s.phase == DataPhase && s.queue == [] && Write(s.framer, parts).Some? {
      WrittenGood(v, k, good, s, parts, s.queue);
    }
  }

  lemma PingGood(v: View, k: Case, good: Account -> bool, s: H, m: Msg)
    requires Views(v) && Laws(k, good) && good(Acc(v, s)) && s.framer.Secure? && v.lay(s.ops).ok && m.command
    ensures SendCommand(s, m).Some? ==> good(Acc(v, SendCommand(s, m).value.(pingSent := true)))
  {
    CommandGood(v, k, good, s, m);
    if SendCommand(s, m).Some? {
      var u := SendCommand(s, m).value;
      assert Acc(v, u.(pingSent := true)) == Acc(v, u);
    }
  }

  lemma PollGood(v: View, k: Case, good: Account -> bool, s: H, p: Poll)
    requires Views(v) && Laws(k, good) && good(Acc(v, s)) && s.framer.Secure? && v.lay(s.ops).ok
    requires s.phase == DataPhase && !p.readIntent
    ensures good(Acc(v, Prepare(s, p)))
  {
    if s.queue != [] {
      DrainGood(v, k, good, s);
    } else if s.waitingPong {
      ErrorGood(v, k, good, s, Timeout);
    } else {
      ErrorGood(v, k, good, s, Internal);
      PingGood(v, k, good, s, PingMessage());
    }
  }

  lemma ReadAskedGood(v: View, good: Account -> bool, s: H)
    requires Views(v) && good(Acc(v, s))
    ensures good(Acc(v, s.(ops := s.ops + [StartRead])))
  {
    assert v.lay(s.ops + [StartRead]) == v.lay(s.ops) && v.tally(s.ops) + [] == v.tally(s.ops);
    assert Acc(v, s.(ops := s.ops + [StartRead])) == Acc(v, s);
  }

  lemma PrepareGood(v: View, k: Case, good: Account -> bool, s: H, p: Poll)
    requires Views(v) && Laws(k, good) && good(Acc(v, s)) && (s.phase == DataPhase ==> s.framer.Secure? && v.lay(s.ops).ok)
    ensures good(Acc(v, Prepare(s, p)))
  {
    if p.deadline && s.phase != DataPhase && !Final(s.phase) {
      ErrorGood(v, k, good, s, Timeout);
    } else if p.readIntent {
      ReadAskedGood(v, good, s);
    } else if s.phase == DataPhase {
      PollGood(v, k, good, s, p);
    }
  }

  lemma ResumeGood(v: View, k: Case, good: Account -> bool, s: H, clock: Clock, r: Octets, peer: Layout)
    requires Views(v) && Laws(k, good) && Fits(k, s, peer) && Fine(v.lay, s, r, peer) && Heard(r, peer, !s.isServer) && good(Acc(v, s))
    ensures good(Acc(v, Resume(s, clock)))
  {
    ProcessGood(v, k, good, s, clock, r, peer);
  }

  lemma AnnouncedGood(v: View, k: Case, good: Account -> bool, s: H, clock: Clock, r: Octets, peer: Layout)
    requires Views(v) && Laws(k, good) && Fits(k, s, peer) && Secured(v.lay, s, r, peer) && Heard(r, peer, !s.isServer) && good(Acc(v, s))
    ensures good(Acc(v, Announced(Announce(s), clock)))
  {
    var a := Announce(s);
    AnnounceAcc(v, s);
    assert Secured(v.lay, a.s, r, peer);
    if a.ok {
      ResumeGood(v, k, good, a.s, clock, r, peer);
    } else {
      ErrorGood(v, k, good, a.s, Internal);
    }
  }

  lemma AckHandshakeGood(v: View, k: Case, good: Account -> bool, s: H, c: Completion, clock: Clock, r: Octets, peer: Layout)
    requires Views(v) && Laws(k, good) && Fits(k, s, peer) && Fine(v.lay, s, r, peer) && Heard(r, peer, !s.isServer) && good(Acc(v, s))
    requires s.phase != DataPhase && s.phase != ReadyServerSend && c != Fatal
    ensures good(Acc(v, SendCompleted(s, c, clock)))
  {
    AckedFine(v.lay, s, r, peer);
    var t := s.(phase := AckPhase(s.phase));
    assert Acc(v, t) == Acc(v, s);
    ResumeGood(v, k, good, t, clock, r, peer);
  }

  lemma AckDataGood(v: View, k: Case, good: Account -> bool, s: H)
    requires Views(v) && Laws(k, good) && good(Acc(v, s)) && s.framer.Secure? && v.lay(s.ops).ok
    ensures good(Acc(v, DrainOne(if s.pingSent then s.(waitingPong := true, pingSent := false) else s)))
  {
    var t := if s.pingSent then s.(waitingPong := true, pingSent := false) else s;
    assert Acc(v, t) == Acc(v, s);
    DrainGood(v, k, good, t);
  }

  lemma AckReadyGood(v: View, k: Case, good: Account -> bool, s: H, clock: Clock, r: Octets, peer: Layout)
    requires Views(v) && Laws(k, good) && Fits(k, s, peer) && Secured(v.lay, s, r, peer) && Heard(r, peer, !s.isServer) && good(Acc(v, s))
    requires !Stopped(s.phase)
    ensures good(Acc(v, Announced(Announce(s.(phase := DataPhase)), clock)))
  {
    var t := s.(phase := DataPhase);
    assert Acc(v, t) == Acc(v, s);
    AnnouncedGood(v, k, good, t, clock, r, peer);
  }

  lemma CompletedGood(v: View, k: Case, good: Account -> bool, s: H, c: Completion, clock: Clock, r: Octets, peer: Layout)
    requires Views(v) && Laws(k, good) && Fits(k, s, peer) && Fine(v.lay, s, r, peer) && Heard(r, peer, !s.isServer) && good(Acc(v, s))
    ensures good(Acc(v, SendCompleted(s, c, clock)))
  {
    if c == Fatal {
      ErrorGood(v, k, good, s, IoError);
    } else if s.phase == DataPhase {
      AckDataGood(v, k, good, s);
    } else if s.phase == ReadyServerSend {
      AckReadyGood(v, k, good, s, clock, r, peer);
    } else {
      AckHandshakeGood(v, k, good, s, c, clock, r, peer);
    }
  }

  lemma ClosesGood(v: View, k: Case, good: Account -> bool, s: H, p: Phase, queue: seq<seq<Msg>>)
    requires Laws(k, good) && good(Acc(v, s)) && Stopped(p)
    ensures good(Acc(v, s.(phase := p, queue := queue)))
  {
    UseHalt(k, good, Acc(v, s));
    assert Acc(v, s.(phase := p, queue := queue)) == Halt(Acc(v, s));
  }

  lemma EventGood(v: View, k: Case, good: Account -> bool, s: H, e: Event, r: Octets, peer: Layout)
    requires Views(v) && Laws(k, good) && Fits(k, s, peer) && Fine(v.lay, s, r, peer) && Heard(r + ReadBy(e), peer, !s.isServer) && good(Acc(v, s))
    ensures good(Acc(v, Step(s, e)))
  {
    assert !e.Read? ==> r + ReadBy(e) == r;
    match e
    case Read(chunk, clock) => ReadDataGood(v, k, good, s, chunk, clock, r, peer);
    case Completed(c, clock) => CompletedGood(v, k, good, s, c, clock, r, peer);
    case Polled(p) => PrepareGood(v, k, good, s, p);
    case Submitted(parts) => SubmitGood(v, k, good, s, parts, r, peer);
    case CloseAsked => ClosesGood(v, k, good, s, ClosingPhase, []);
    case FdGone => ClosesGood(v, k, good, s, ClosedPhase, s.queue);
    case UpstreamDrained(n) => assert Acc(v, Step(s, e)) == Acc(v, s);
  }

  // --- What was sent stays sent ---

  ghost predicate WithHistory(good: Account -> bool, both: Account -> bool, sofar: seq<seq<Msg>>) {
    forall a :: both(a) <==> good(a) && sofar <= a.batches
  }

  lemma HistoryLaws(k: Case, good: Account -> bool, both: Account -> bool, sofar: seq<seq<Msg>>)
    requires Laws(k, good) && WithHistory(good, both, sofar)
    ensures Laws(k, both)
  {
    HistoryPlain(k, good, both, sofar);
    HistoryReads(k, good, both, sofar);
  }

  lemma HistoryPlain(k: Case, good: Account -> bool, both: Account -> bool, sofar: seq<seq<Msg>>)
    requires Laws(k, good) && WithHistory(good, both, sofar)
    ensures StaysPlain(k, both)
  {
    forall a: Account, b: Account
      | both(a) && a.framer.Plain? && b.framer.Plain? && PlainGood(k, b) && a.own <= b.own && |b.own| <= Writes(k.isServer)
      ensures both(b)
    {
      assert PlainGood(k, a);
      UsePlain(k, good, a, b);
    }
  }

  lemma HistoryReads(k: Case, good: Account -> bool, both: Account -> bool, sofar: seq<seq<Msg>>)
    requires Laws(k, good) && WithHistory(good, both, sofar)
    ensures ReadsOn(k, both)
  {
    forall a: Account, net, octets, o, stops
      | both(a) && a.framer.Secure? && a.live && OpenedFrom(a.framer, net, octets) && octets <= k.stream
        && o == TryRead(a.framer, k.max, net) && (o.res.Failed? ==> stops)
      ensures both(Afterwards(a, o, stops))
    {
      UseRead(k, good, a, net, octets, o, stops);
    }
  }

  /** An event keeps a handler's account in order, and takes back nothing that was sent. */
  lemma AccountKept(v: View, k: Case, good: Account -> bool, s: H, e: Event, r: Octets, peer: Layout)
    requires Views(v) && Laws(k, good) && Fits(k, s, peer) && Fine(v.lay, s, r, peer) && Heard(r + ReadBy(e), peer, !s.isServer) && good(Acc(v, s))
    ensures good(Acc(v, Step(s, e))) && v.tally(s.ops) <= v.tally(Step(s, e).ops)
  {
    var sofar := v.tally(s.ops);
    var both := (a: Account) => good(a) && sofar <= a.batches;
    HistoryLaws(k, good, both, sofar);
    EventGood(v, k, both, s, e, r, peer);
    assert both(Acc(v, Step(s, e)));
  }

  // --- The two together ---

  /** When an account is in order, in each case. */
  type Judge = Case -> Account -> bool

  ghost predicate Lawfully(g: Judge) { forall k: Case :: Matching(k.peerSuite, k.suite) ==> Laws(k, g(k)) }

  /** What there is to read for the other is what the one's account says it sealed. */
  ghost predicate Passes(g: Judge) {
    forall k: Case, a: Account, l: Case, b: Account {:trigger g(k)(a), g(l)(b)} ::
      g(k)(a) && g(l)(b) && Facing(k, a, l, b) ==> g(Renewed(l, a))(b)
  }

  /** The accounts of the two ends of one connection; the one's may have gone on. */
  ghost predicate Facing(k: Case, a: Account, l: Case, b: Account) {
    && k.peer == b.own && k.isServer == !l.isServer && l.peerSuite == k.suite
    && l.peer <= a.own && |a.own| <= Reads(l.isServer) && l.truth <= Plains(a.batches)
  }

  function Renewed(l: Case, a: Account): Case { l.(peer := a.own, stream := a.secured, truth := Plains(a.batches)) }

  /** `s` with peer `w`. */
  function CaseOf(v: View, s: H, w: H): Case
    requires s.cfg.security.noise.Some? && w.cfg.security.noise.Some?
  {
    Case(s.isServer, s.cfg.maxMsgSize, s.cfg.security.noise.value.suite, w.cfg.security.noise.value.suite,
         v.lay(w.ops).tokens, v.lay(w.ops).secured, Plains(v.tally(w.ops)))
  }

  ghost predicate SideGood(v: View, g: Judge, s: H, w: H) {
    && s.cfg.security.noise.Some? && w.cfg.security.noise.Some?
    && g(CaseOf(v, s, w))(Acc(v, s))
  }

  /** The suites open what each other seals. */
  ghost predicate Mutual(s: H, w: H) {
    && s.cfg.security.noise.Some? && w.cfg.security.noise.Some?
    && Matching(w.cfg.security.noise.value.suite, s.cfg.security.noise.value.suite)
    && Matching(s.cfg.security.noise.value.suite, w.cfg.security.noise.value.suite)
  }

  /** An event on one side keeps its own account in order. */
  lemma OwnSide(v: View, g: Judge, s: H, r: Octets, w: H, e: Event)
    requires Views(v) && Lawfully(g) && SideOk(v.lay, s, r, w) && SideGood(v, g, s, w) && Mutual(s, w)
    requires Heard(r + ReadBy(e), v.lay(w.ops), !s.isServer)
    ensures g(CaseOf(v, s, w))(Acc(v, Step(s, e))) && v.tally(s.ops) <= v.tally(Step(s, e).ops)
  {
    var k := CaseOf(v, s, w);
    assert Laws(k, g(k));
    AccountKept(v, k, g(k), s, e, r, v.lay(w.ops));
  }

  lemma PlainsGrow(a: seq<seq<Msg>>, b: seq<seq<Msg>>)
    requires a <= b
    ensures Plains(a) <= Plains(b)
  {
  }

  /** The other side's account is about more than before. */
  lemma OtherSide(v: View, g: Judge, s: H, t: H, w: H)
    requires Passes(g) && SideGood(v, g, w, s) && t.cfg == s.cfg && t.isServer == s.isServer && s.isServer != w.isServer
    requires g(CaseOf(v, s, w))(Acc(v, t)) && v.tally(s.ops) <= v.tally(t.ops)
    requires v.lay(s.ops).tokens <= v.lay(t.ops).tokens && |v.lay(t.ops).tokens| <= Writes(s.isServer)
    ensures SideGood(v, g, w, t)
  {
    PlainsGrow(v.tally(s.ops), v.tally(t.ops));
    assert Renewed(CaseOf(v, w, s), Acc(v, t)) == CaseOf(v, w, t);
  }

  ghost predicate LinkGood(v: View, g: Judge, x: Link) {
    LinkOk(v.lay, x) && SideGood(v, g, x.a, x.b) && SideGood(v, g, x.b, x.a) && Mutual(x.a, x.b)
  }

  lemma BothKept(lay: Reading, s: H, r: Octets, w: H, got: Octets, e: Event)
    requires Lays(lay) && SideOk(lay, s, r, w) && SideOk(lay, w, got, s) && r + ReadBy(e) <= OctetsOf(lay(w.ops))
    ensures var t := Step(s, e);
            && SideOk(lay, t, r + ReadBy(e), w) && SideOk(lay, w, got, t) && Heard(r + ReadBy(e), lay(w.ops), !s.isServer)
            && t.cfg == s.cfg && t.isServer == s.isServer
            && lay(s.ops).tokens <= lay(t.ops).tokens && |lay(t.ops).tokens| <= Writes(s.isServer)
  {
    SideSteps(lay, s, r, w, got, e);
    EventOk(lay, s, e, r, lay(w.ops));
    FineHalts(lay, Step(s, e), r + ReadBy(e), lay(w.ops));
  }

  lemma SideEvent(v: View, g: Judge, s: H, r: Octets, w: H, got: Octets, e: Event)
    requires Views(v) && Lawfully(g) && Passes(g)
    requires SideOk(v.lay, s, r, w) && SideOk(v.lay, w, got, s) && SideGood(v, g, s, w) && SideGood(v, g, w, s) && Mutual(s, w)
    requires r + ReadBy(e) <= OctetsOf(v.lay(w.ops))
    ensures var t := Step(s, e);
            && SideOk(v.lay, t, r + ReadBy(e), w) && SideOk(v.lay, w, got, t)
            && SideGood(v, g, t, w) && SideGood(v, g, w, t) && Mutual(t, w)
  {
    BothKept(v.lay, s, r, w, got, e);
    OwnSide(v, g, s, r, w, e);
    OtherSide(v, g, s, Step(s, e), w);
  }

  lemma StepLinkGood(v: View, g: Judge, x: Link, e: LinkEvent)
    requires Views(v) && Lawfully(g) && Passes(g) && LinkGood(v, g, x) && Possible(x, e)
    requires Wire(x.a.ops) == OctetsOf(v.lay(x.a.ops)) && Wire(x.b.ops) == OctetsOf(v.lay(x.b.ops))
    ensures LinkGood(v, g, StepLink(x, e))
  {
    match e
    case OnA(ev) => SideEvent(v, g, x.a, x.aGot, x.b, x.bGot, ev);
    case OnB(ev) => SideEvent(v, g, x.b, x.bGot, x.a, x.aGot, ev);
  }

  /** `v` accounts for all that was sent. */
  ghost predicate Faithful(v: View) { forall ops :: v.lay(ops).ok ==> Wire(ops) == OctetsOf(v.lay(ops)) }

  lemma {:induction false} RunLinkGood(v: View, g: Judge, x: Link, es: seq<LinkEvent>)
    requires Views(v) && Faithful(v) && Lawfully(g) && Passes(g) && LinkGood(v, g, x) && Feasibly(x, es)
    ensures LinkGood(v, g, RunLink(x, es))
  {
    if es != [] {
      var y := RunLink(x, es[..|es| - 1]);
      RunLinkGood(v, g, x, es[..|es| - 1]);
      StepLinkGood(v, g, y, es[|es| - 1]);
    }
  }

  // --- The concrete accounts ---

  ghost function Judging(k: Case): Account -> bool { (a: Account) => Good(k, a) }

  lemma JudgingHalts(k: Case)
    ensures Halts(Judging(k))
  {
    forall a | Judging(k)(a) ensures Judging(k)(Halt(a)) {
      HaltGood(k, a);
    }
  }

  lemma JudgingSeals(k: Case)
    ensures Seals(Judging(k))
  {
    forall a: Account, ms: seq<Msg>, app: bool
      | Judging(k)(a) && a.framer.Secure? && Write(a.framer, ms).Some? && (app || (|ms| == 1 && ms[0].command))
      ensures Judging(k)(Seal(a, ms, app))
    {
      SealGood(k, a, ms, app);
    }
  }

  lemma JudgingReads(k: Case)
    requires Matching(k.peerSuite, k.suite)
    ensures ReadsOn(k, Judging(k))
  {
    forall a: Account, net, octets, o, stops
      | Judging(k)(a) && a.framer.Secure? && a.live && OpenedFrom(a.framer, net, octets) && octets <= k.stream
        && o == TryRead(a.framer, k.max, net) && (o.res.Failed? ==> stops)
      ensures Judging(k)(Afterwards(a, o, stops))
    {
      ReadGood(k, a, net, octets, o, stops);
    }
  }

  lemma JudgingPlain(k: Case)
    ensures StaysPlain(k, Judging(k))
  {
    forall a: Account, b: Account
      | Judging(k)(a) && a.framer.Plain? && b.framer.Plain? && PlainGood(k, b) && a.own <= b.own && |b.own| <= Writes(k.isServer)
      ensures Judging(k)(b)
    {
      OwnGrows(k, a.own, b.own);
    }
  }

  lemma JudgingSwitches(k: Case)
    ensures Switches(k, Judging(k))
  {
    forall a | Judging(k)(a) && a.framer.Plain? && AllTokens(k, a.own) ensures Judging(k)(Switched(k, a)) {
      SwitchGood(k, a);
    }
  }

  lemma JudgingLaws(k: Case)
    requires Matching(k.peerSuite, k.suite)
    ensures Laws(k, Judging(k))
  {
    JudgingHalts(k);
    JudgingSeals(k);
    JudgingReads(k);
    JudgingPlain(k);
    JudgingSwitches(k);
  }

  lemma JudgingLawfully()
    ensures Lawfully(Judging)
  {
    forall k: Case | Matching(k.peerSuite, k.suite) ensures Laws(k, Judging(k)) {
      JudgingLaws(k);
    }
  }

  /** An account tells the truth about what was sealed. */
  ghost predicate Speaks(g: Judge, honest: (Case, seq<Msg>) -> bool) {
    forall k: Case, a: Account, l: Case, own: seq<Msg> {:trigger g(k)(a), honest(l, own)} ::
      g(k)(a) && Hears(k, a, l, own) ==> honest(l, own)
  }

  ghost predicate Hears(k: Case, a: Account, l: Case, own: seq<Msg>) {
    && l.isServer == !k.isServer && l.peer == a.own && l.stream == a.secured && l.truth == Plains(a.batches)
    && k.peer == own && l.peerSuite == k.suite
  }

  /** An account stays in order when the peer truthfully goes on. */
  ghost predicate Follows(g: Judge, honest: (Case, seq<Msg>) -> bool) {
    forall l: Case, m: Case, b: Account {:trigger g(l)(b), g(m)(b)} ::
      g(l)(b) && Extends(l, m) && m.suite == l.suite && m.peerSuite == l.peerSuite && honest(m, b.own) ==> g(m)(b)
  }

  lemma SpeaksFollows(g: Judge, honest: (Case, seq<Msg>) -> bool)
    requires Speaks(g, honest) && Follows(g, honest)
    ensures Passes(g)
  {
    forall k: Case, a: Account, l: Case, b: Account | g(k)(a) && g(l)(b) && Facing(k, a, l, b) ensures g(Renewed(l, a))(b) {
      assert honest(Renewed(l, a), b.own);
    }
  }

  lemma JudgingSpeaks()
    ensures Speaks(Judging, Truthful)
  {
    forall k: Case, a: Account, l: Case, own: seq<Msg> | Judging(k)(a) && Hears(k, a, l, own) ensures Truthful(l, own) {
      GoodTruth(k, a, l, own);
    }
  }

  lemma JudgingFollows()
    ensures Follows(Judging, Truthful)
  {
    forall l: Case, m: Case, b: Account
      | Judging(l)(b) && Extends(l, m) && m.suite == l.suite && m.peerSuite == l.peerSuite && Truthful(m, b.own)
      ensures Judging(m)(b)
    {
      PeerGood(l, m, b);
    }
  }

  lemma JudgingPasses()
    ensures Passes(Judging)
  {
    JudgingSpeaks();
    JudgingFollows();
    SpeaksFollows(Judging, Truthful);
  }

  function Eyes(): View { View(LayoutOf, TallyOf, DataOf) }

  lemma EyesView()
    ensures Views(Eyes())
  {
    LayoutLays();
    TallyTallies();
    forall es, e ensures DataOf(es + [e]) == DataOf(es) + (if e.Data? then [e.msg] else []) {
      DataSnoc(es, e);
    }
  }

  lemma EyesFaithful()
    ensures Faithful(Eyes())
  {
    forall ops | LayoutOf(ops).ok ensures Wire(ops) == OctetsOf(LayoutOf(ops)) {
      LayoutIsWire(ops);
    }
  }

  lemma FreshSideGood(cfg: Config, isServer: bool, room: nat, w: H)
    requires NoiseOnly(cfg.security, isServer) && w.cfg.security.noise.Some? && LayoutOf(w.ops) == Layout(Prelude(), [], [], true)
    requires TallyOf(w.ops) == []
    ensures SideGood(Eyes(), Judging, Connected(cfg, isServer, room), w)
  {
    StartLayout(cfg, isServer, room);
    StartTally(cfg, isServer, room);
    assert Plains([]) == [];
  }

  lemma StartTally(cfg: Config, isServer: bool, room: nat)
    ensures TallyOf(Connected(cfg, isServer, room).ops) == []
  {
  }

  lemma FreshGood(p: Config, q: Config, isServer: bool, pRoom: nat, qRoom: nat)
    requires NoiseOnly(p.security, isServer) && NoiseOnly(q.security, !isServer)
    requires Matching(p.security.noise.value.suite, q.security.noise.value.suite)
    requires Matching(q.security.noise.value.suite, p.security.noise.value.suite)
    ensures LinkGood(Eyes(), Judging, Fresh(p, q, isServer, pRoom, qRoom))
  {
    FreshOk(p, q, isServer, pRoom, qRoom);
    StartLayout(p, isServer, pRoom);
    StartLayout(q, !isServer, qRoom);
    StartTally(p, isServer, pRoom);
    StartTally(q, !isServer, qRoom);
    FreshSideGood(p, isServer, pRoom, Connected(q, !isServer, qRoom));
    FreshSideGood(q, !isServer, qRoom, Connected(p, isServer, pRoom));
  }

  // --- What the applications see ---

  /** The events on one side of a link. */
  function SideEvents(es: seq<LinkEvent>, onA: bool): seq<Event> {
    if es == [] then []
    else
      var last := es[|es| - 1];
      SideEvents(es[..|es| - 1], onA) + (if last.OnA? == onA then [last.e] else [])
  }

  lemma {:induction false} SideRuns(x: Link, es: seq<LinkEvent>)
    ensures RunLink(x, es).a == Run(x.a, SideEvents(es, true)) && RunLink(x, es).b == Run(x.b, SideEvents(es, false))
  {
    if es != [] {
      SideRuns(x, es[..|es| - 1]);
      var last := es[|es| - 1];
      RunMore(x.a, SideEvents(es[..|es| - 1], true), last.e);
      RunMore(x.b, SideEvents(es[..|es| - 1], false), last.e);
    }
  }

  lemma RunMore(s: H, es: seq<Event>, e: Event)
    ensures Run(s, es + [e]) == Step(Run(s, es), e) && Run(s, es + []) == Run(s, es)
  {
    assert (es + [e])[..|es|] == es && es + [] == es;
  }

  lemma {:induction false} FlattenPrefix(a: seq<seq<Msg>>, b: seq<seq<Msg>>)
    requires a <= b
    ensures Flatten(a) <= Flatten(b)
    decreases |a|
  {
    if a != [] {
      FlattenPrefix(a[1..], b[1..]);
    }
  }

  /** Data told at `s` is a prefix of the data framed at `w`. */
  lemma ToldAt(s: H, w: H)
    requires SideGood(Eyes(), Judging, s, w) && SideGood(Eyes(), Judging, w, s) && AllSized(Flatten(TallyOf(w.ops)))
    ensures DataOf(s.events) <= Payload(Flatten(w.framed))
  {
    ToldWasFramed(CaseOf(Eyes(), s, w), Acc(Eyes(), s), CaseOf(Eyes(), w, s), Acc(Eyes(), w));
  }

  lemma ToldWasFramedHere(p: Config, q: Config, isServer: bool, pRoom: nat, qRoom: nat, es: seq<LinkEvent>)
    requires NoiseOnly(p.security, isServer) && NoiseOnly(q.security, !isServer)
    requires Matching(p.security.noise.value.suite, q.security.noise.value.suite)
    requires Matching(q.security.noise.value.suite, p.security.noise.value.suite)
    requires Feasibly(Fresh(p, q, isServer, pRoom, qRoom), es)
    requires var x := RunLink(Fresh(p, q, isServer, pRoom, qRoom), es);
             AllSized(Flatten(TallyOf(x.a.ops))) && AllSized(Flatten(TallyOf(x.b.ops)))
    ensures var x := RunLink(Fresh(p, q, isServer, pRoom, qRoom), es);
            DataOf(x.a.events) <= Payload(Flatten(x.b.framed)) && DataOf(x.b.events) <= Payload(Flatten(x.a.framed))
  {
    var start := Fresh(p, q, isServer, pRoom, qRoom);
    FreshGood(p, q, isServer, pRoom, qRoom);
    EyesView();
    EyesFaithful();
    JudgingLawfully();
    JudgingPasses();
    RunLinkGood(Eyes(), Judging, start, es);
    var x := RunLink(start, es);
    ToldAt(x.a, x.b);
    ToldAt(x.b, x.a);
  }

  lemma FramedWasSubmitted(cfg: Config, isServer: bool, room: nat, es: seq<Event>)
    ensures Payload(Flatten(Run(Connected(cfg, isServer, room), es).framed)) <= Payload(Flatten(HandlerRuns.Sent(es)))
  {
    HandlerRuns.MessagesInOrder(cfg, isServer, room, es);
    var framed := Run(Connected(cfg, isServer, room), es).framed;
    FlattenPrefix(framed, HandlerRuns.Sent(es));
    PayloadPrefix(Flatten(framed), Flatten(HandlerRuns.Sent(es)));
  }

  lemma PrefixOf<T>(a: seq<T>, b: seq<T>, c: seq<T>)
    requires a <= b <= c
    ensures a <= c
  {
  }

  /** The main result. Two handlers of opposite roles with NOISE_XX configured, joined by their byte
      streams, whose suites open what the other seals: in every run of reads in any chunks,
      completions, polls, submissions, closes and faults, the data told to the application at either
      end is a prefix of the data that the application at the other end submitted. Nothing is lost
      in between, doubled, reordered or made up. */
  lemma SecureDelivered(p: Config, q: Config, isServer: bool, pRoom: nat, qRoom: nat, es: seq<LinkEvent>)
    requires NoiseOnly(p.security, isServer) && NoiseOnly(q.security, !isServer)
    requires Matching(p.security.noise.value.suite, q.security.noise.value.suite)
    requires Matching(q.security.noise.value.suite, p.security.noise.value.suite)
    requires Feasibly(Fresh(p, q, isServer, pRoom, qRoom), es)
    requires var x := RunLink(Fresh(p, q, isServer, pRoom, qRoom), es);
             AllSized(Flatten(TallyOf(x.a.ops))) && AllSized(Flatten(TallyOf(x.b.ops)))
    ensures var x := RunLink(Fresh(p, q, isServer, pRoom, qRoom), es);
            && DataOf(x.a.events) <= Payload(Flatten(HandlerRuns.Sent(SideEvents(es, false))))
            && DataOf(x.b.events) <= Payload(Flatten(HandlerRuns.Sent(SideEvents(es, true))))
  {
    var start := Fresh(p, q, isServer, pRoom, qRoom);
    ToldWasFramedHere(p, q, isServer, pRoom, qRoom, es);
    SideRuns(start, es);
    var x := RunLink(start, es);
    FramedWasSubmitted(p, isServer, pRoom, SideEvents(es, true));
    FramedWasSubmitted(q, !isServer, qRoom, SideEvents(es, false));
    PrefixOf(DataOf(x.a.events), Payload(Flatten(x.b.framed)), Payload(Flatten(HandlerRuns.Sent(SideEvents(es, false)))));
    PrefixOf(DataOf(x.b.events), Payload(Flatten(x.a.framed)), Payload(Flatten(HandlerRuns.Sent(SideEvents(es, true)))));
  }
}
