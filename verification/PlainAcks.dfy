/** With PLAIN the order of reads and acknowledgements does matter: the acknowledgement of HELLO is
    ignored while WELCOME is awaited, and is taken for that of READY afterwards. */
module PlainAcks {
  import opened Bytes
  import opened Frames
  import opened Framers
  import opened PlainAuth
  import opened Mechanisms
  import opened Greeting
  import opened Handler
  import opened HandlerSteps
  import opened Interleaving
  import opened Confluence
  import opened NullRounds

  /** A WELCOME frame, whatever its body. */
  predicate IsWelcome(w: Msg) {
    w.command && !w.more && WellFormed(w.data) && NameOf(w.data) == WELCOME && Sized(w)
  }

  lemma WelcomeExists() returns (w: Msg)
    ensures IsWelcome(w) && |w.data| == 8
  {
    TokenParts(WELCOME, []);
    w := Msg(Token(WELCOME, []), false, true);
  }

  /** A PLAIN client that has sent HELLO, has nothing left to read and can take this WELCOME. */
  predicate Awaits(s: H, w: Msg) {
    && IsWelcome(w) && Admits(s.cfg.maxMsgSize, |w.data|)
    && s.phase == SecurityExchange && !s.isServer && s.greeting == [] && s.acc == [] && s.framer == Plain(ReadHeader)
    && s.mech.Some? && s.mech.value.PlainM?
    && !s.mech.value.plain.isServer && s.mech.value.plain.phase == ClientExpectWelcome
  }

  /** The READY that follows WELCOME. */
  function ReadySend(s: H): Blueprint {
    Send(EncodeFrame(OwnReady(s.cfg)), CommandFrame(OwnReady(s.cfg)), false, false)
  }

  /** Where WELCOME leads. */
  function AfterWelcome(s: H, w: Msg): H
    requires Awaits(s, w)
  {
    s.(mech := None, idSecurity := Or(s.idSecurity, s.mech.value.plain.username), phase := ReadyClientSend,
       ops := s.ops + [ReadySend(s)])
  }

  lemma PlainLeaves(s: H, p: PlainMech)
    requires s.phase == SecurityExchange && !s.isServer && s.framer == Plain(ReadHeader) && p.phase == PlainReady
    ensures Handler.AskToken(s, PlainM(p)) == Asked(s.(mech := Some(PlainM(p))), PlainM(p), true, false)
    ensures LeaveSecurity(s, PlainM(p)) ==
            Next(s.(mech := None, idSecurity := Or(s.idSecurity, p.username), phase := ReadyClientSend, ops := s.ops + [ReadySend(s)]), true)
  {
    SendReadyRound(s.(mech := None, idSecurity := Or(s.idSecurity, p.username), phase := ReadyClientSend), ReadyClientSend);
  }

  lemma GotWelcome(s: H, p: PlainMech)
    requires s.phase == SecurityExchange && !s.isServer && s.framer == Plain(ReadHeader) && p.phase == PlainReady
    ensures GotToken(s, MechProcessed(PlainM(p), true)) == LeaveSecurity(s, PlainM(p))
  {
    PlainLeaves(s, p);
    PlainLeaves(s.(mech := Some(PlainM(p))), p);
  }

  lemma WelcomeTaken(max: int, w: Msg, wire: Octets)
    requires IsWelcome(w) && Admits(max, |w.data|) && wire == EncodeFrame(w)
    ensures TryRead(Plain(ReadHeader), max, wire) == ReadOut(Plain(ReadHeader), [], Frame(w)) && wire != []
  {
    FrameRoundTrip(w, max, []);
    assert wire + [] == wire;
  }

  lemma TokenRound(s: H, w: Msg, m: PlainMech, wire: Octets)
    requires Awaits(s, w) && s.mech == Some(PlainM(m)) && wire == EncodeFrame(w)
    ensures Arm(s.(acc := wire)) == GotToken(s, MechProcessed(PlainM(m.(phase := PlainReady)), true))
  {
    WelcomeTaken(s.cfg.maxMsgSize, w, wire);
    var x := s.(acc := wire);
    assert Handler.AskToken(x, PlainM(m)) == Asked(x, PlainM(m), true, false);
    assert ReadToken(x, PlainM(m), false) == OnToken(s, PlainM(m), false, Frame(w));
  }

  lemma WelcomeFlow(s: H, w: Msg, m: PlainMech, wire: Octets)
    requires Awaits(s, w) && s.mech == Some(PlainM(m)) && wire == EncodeFrame(w)
    ensures Arm(s.(acc := wire)) == Next(AfterWelcome(s, w), true)
  {
    TokenRound(s, w, m, wire);
    GotWelcome(s, m.(phase := PlainReady));
    PlainLeaves(s, m.(phase := PlainReady));
  }

  lemma OneRound(x: H, u: H)
    requires x.phase != DataPhase && Arm(x) == Next(u, true)
    ensures Process(x, Never) == Process(u, Never)
    ensures Sending(u.phase) ==> Process(x, Never) == u
  {
    ProcessRound(x);
    if Sending(u.phase) {
      RestsSending(u);
    }
  }

  lemma WelcomeRead(s: H, w: Msg, wire: Octets)
    requires Awaits(s, w) && wire == EncodeFrame(w)
    ensures Receive(s, wire) == AfterWelcome(s, w)
  {
    WelcomeTaken(s.cfg.maxMsgSize, w, wire);
    assert s.acc + wire == wire;
    ReceiveProcesses(s, wire);
    WelcomeFlow(s, w, s.mech.value.plain, wire);
    OneRound(s.(acc := wire), AfterWelcome(s, w));
  }

  lemma AckIgnored(s: H)
    requires s.phase == SecurityExchange
    ensures Ack(s) == s
  {
  }

  lemma AckReady(s: H)
    requires s.phase == ReadyClientSend && s.acc == [] && s.greeting == []
    ensures Ack(s) == s.(phase := ReadyClientWaitServer)
  {
  }

  /** The two orders end in different phases, from any such state. */
  lemma OrderMatters(s: H, w: Msg, wire: Octets)
    requires Awaits(s, w) && wire == EncodeFrame(w)
    ensures Receive(Ack(s), wire).phase == ReadyClientSend
    ensures Ack(Receive(s, wire)).phase == ReadyClientWaitServer
  {
    WelcomeRead(s, w, wire);
    AckIgnored(s);
    AckReady(AfterWelcome(s, w));
  }

  // --- A run that gets there ---

  function ServerTail(): Octets { V3Tail(PlainName(), true) }

  function Versioned(cfg: Config, room: nat): H {
    var s := Connected(cfg, false, room);
    s.(phase := SendV3Tail, greeting := Prelude(), acc := ServerTail(),
       ops := s.ops + [Send(V3Tail(Proposed(cfg.security, false), false), Control, false, false)])
  }

  lemma VersionRead(cfg: Config, room: nat)
    ensures Receive(Ack(Connected(cfg, false, room)), Prelude() + ServerTail()) == Versioned(cfg, room)
  {
    var s := Connected(cfg, false, room).(phase := WaitPeerRevision);
    assert Ack(Connected(cfg, false, room)) == s;
    var x := s.(acc := Prelude() + ServerTail());
    assert [] + (Prelude() + ServerTail()) == Prelude() + ServerTail() && Prelude() <= x.acc && x.acc[11..] == ServerTail();
    FillPrelude(x);
    OwnMajor();
    assert Arm(x) == OnRevision(Fill(x, 11), Some(MAJOR));
    assert Arm(x) == Next(Versioned(cfg, room), true);
    OneRound(x, Versioned(cfg, room));
  }

  function Exchanging(cfg: Config, room: nat): H {
    Versioned(cfg, room).(phase := SecurityExchange, greeting := [], acc := [], version := Some(V3(0)),
                          mech := Some(PlainM(PlainStart(false, cfg.security.username, cfg.security.password))))
  }

  lemma PlainTail()
    ensures var g := Prelude() + ServerTail();
            |g| == 64 && g[64..] == [] && DecodeV3(g) == Some(V3Greeting(0, PlainName(), true))
  {
    GreetingRoundTrip(PlainName(), true, []);
    var g := Prelude() + ServerTail();
    assert g + [] == g;
  }

  lemma PlainNegotiated(x: H, c: SecurityConfig)
    requires c == x.cfg.security && c.usePlain && !x.isServer
    ensures OnGreeting(x, Some(V3Greeting(0, PlainName(), true))) ==
            Next(x.(version := Some(V3(0)), mech := Some(PlainM(PlainStart(false, c.username, c.password))), phase := SecurityExchange), true)
  {
    MechanismNamesDiffer();
  }

  lemma GreetingFlow(cfg: Config, room: nat)
    requires cfg.security.usePlain
    ensures Arm(Versioned(cfg, room).(phase := WaitV3Greeting)) == Next(Exchanging(cfg, room), true)
  {
    var x := Versioned(cfg, room).(phase := WaitV3Greeting);
    FillTail(x, ServerTail());
    PlainTail();
    assert ServerTail()[53..] == [];
    var y := Versioned(cfg, room).(phase := WaitV3Greeting, greeting := [], acc := []);
    assert Fill(x, 64) == y.(greeting := Prelude() + ServerTail());
    PlainNegotiated(y, cfg.security);
  }

  lemma TailAcked(x: H)
    requires x.phase == SendV3Tail && x.greeting != []
    ensures Ack(x) == Process(x.(phase := WaitV3Greeting), Never)
  {
  }

  lemma GreetingRead(cfg: Config, room: nat)
    requires cfg.security.usePlain
    ensures Ack(Versioned(cfg, room)) == Process(Exchanging(cfg, room), Never)
  {
    GreetingFlow(cfg, room);
    OneRound(Versioned(cfg, room).(phase := WaitV3Greeting), Exchanging(cfg, room));
    TailAcked(Versioned(cfg, room));
  }

  lemma HelloRound(x: H, p: PlainMech)
    requires x.phase == SecurityExchange && x.framer == Plain(ReadHeader) && x.acc == [] && x.mech == Some(PlainM(p))
    requires p.phase == ClientSendHello
    ensures var f := Arm(x);
            f.Next? && f.progress && f.s == x.(mech := Some(PlainM(p.(phase := ClientExpectWelcome))), ops := f.s.ops) && |f.s.ops| == |x.ops| + 1
  {
  }

  lemma WaitRound(x: H, p: PlainMech)
    requires x.phase == SecurityExchange && x.framer == Plain(ReadHeader) && x.acc == [] && x.mech == Some(PlainM(p))
    requires p.phase == ClientExpectWelcome
    ensures Arm(x) == Stop(x)
  {
    assert Handler.AskToken(x, PlainM(p)) == Asked(x, PlainM(p), true, false);
  }

  /** Where the opening leads. */
  function Opened(cfg: Config, room: nat): H { Process(Exchanging(cfg, room), Never) }

  lemma HelloSent(cfg: Config, room: nat, w: Msg)
    requires IsWelcome(w) && Admits(cfg.maxMsgSize, |w.data|)
    ensures var s := Opened(cfg, room); Awaits(s, w) && |s.ops| == 3
  {
    var x := Exchanging(cfg, room);
    var p := PlainStart(false, cfg.security.username, cfg.security.password);
    HelloRound(x, p);
    var y := Arm(x).s;
    OneRound(x, y);
    WaitRound(y, p.(phase := ClientExpectWelcome));
    ProcessRound(y);
  }

  // --- The two runs ---

  function Opening(): seq<Event> { [Completed(Acked, Never), Read(Prelude() + ServerTail(), Never), Completed(Acked, Never)] }

  function Events(ackFirst: bool, wire: Octets): seq<Event> {
    Opening() + (if ackFirst then [Completed(Acked, Never), Read(wire, Never)] else [Read(wire, Never), Completed(Acked, Never)])
  }

  function FirstInputs(first: Octets): seq<Input> { [Acknowledged, Chunk(first), Acknowledged] }

  function LastInputs(ackFirst: bool, last: Octets): seq<Input> {
    if ackFirst then [Acknowledged, Chunk(last)] else [Chunk(last), Acknowledged]
  }

  lemma InputsMore(es: seq<Event>, e: Event)
    ensures Inputs(es + [e]) == Inputs(es) + [if e.Read? then Chunk(e.chunk) else Acknowledged]
  {
    assert (es + [e])[..|es|] == es;
  }

  lemma InputsOfFive(es: seq<Event>, a: Event, b: Event, c: Event, d: Event, e: Event)
    requires es == [a, b, c, d, e]
    ensures Inputs(es) == [InputOf(a), InputOf(b), InputOf(c), InputOf(d), InputOf(e)]
  {
    InputsMore([], a);
    InputsMore([] + [a], b);
    InputsMore([] + [a] + [b], c);
    InputsMore([] + [a] + [b] + [c], d);
    InputsMore([] + [a] + [b] + [c] + [d], e);
    assert es == [] + [a] + [b] + [c] + [d] + [e];
  }

  function InputOf(e: Event): Input { if e.Read? then Chunk(e.chunk) else Acknowledged }

  lemma InputsAre(ackFirst: bool, wire: Octets)
    requires wire != []
    ensures Inputs(Events(ackFirst, wire)) == FirstInputs(Prelude() + ServerTail()) + LastInputs(ackFirst, wire)
    ensures Undisturbed(Events(ackFirst, wire))
  {
    var es := Events(ackFirst, wire);
    InputsOfFive(es, es[0], es[1], es[2], es[3], es[4]);
  }

  lemma TotalsAre(ackFirst: bool, first: Octets, last: Octets)
    ensures var inputs := FirstInputs(first) + LastInputs(ackFirst, last);
            && OctetsOf(inputs) == first + last && AcksOf(inputs) == 3
            && AcksOf(inputs[..0]) == 0 && AcksOf(inputs[..2]) == 1 && AcksOf(inputs[..3]) == 2 && AcksOf(inputs[..4]) <= 3
            && (!ackFirst ==> AcksOf(inputs[..4]) == 2)
  {
    var inputs := FirstInputs(first) + LastInputs(ackFirst, last);
    forall k | 0 <= k < 5
      ensures OctetsOf(inputs[..k + 1]) == OctetsOf(inputs[..k]) + (if inputs[k].Chunk? then inputs[k].octets else [])
      ensures AcksOf(inputs[..k + 1]) == AcksOf(inputs[..k]) + (if inputs[k].Acknowledged? then 1 else 0)
    {
      OneMoreInput(inputs[..k], inputs[k]);
      assert inputs[..k] + [inputs[k]] == inputs[..k + 1];
    }
    assert inputs[..5] == inputs && inputs[..0] == [];
    assert inputs[0].Acknowledged? && inputs[1] == Chunk(first) && inputs[2].Acknowledged?;
    assert OctetsOf(inputs[..1]) == [] && OctetsOf(inputs[..2]) == first && OctetsOf(inputs[..3]) == first;
    assert OctetsOf(inputs[..4]) == if ackFirst then first else first + last;
  }

  /** What a run needs of its states, each step by itself. */
  ghost predicate Stepwise(m: Machine<H>, states: seq<H>, first: Octets, last: Octets, ackFirst: bool) {
    && |states| == 6 && first != [] && last != []
    && states[1] == m.ack(states[0]) && states[2] == m.receive(states[1], first) && states[3] == m.ack(states[2])
    && states[4] == (if ackFirst then m.ack(states[3]) else m.receive(states[3], last))
    && states[5] == (if ackFirst then m.receive(states[4], last) else m.ack(states[4]))
    && m.issued(states[0]) > 0 && m.issued(states[2]) > 1 && m.issued(states[3]) > 2 && m.issued(states[4]) > 2
  }

  lemma StepwiseRuns(m: Machine<H>, states: seq<H>, first: Octets, last: Octets, ackFirst: bool)
    requires Stepwise(m, states, first, last, ackFirst)
    ensures var inputs := FirstInputs(first) + LastInputs(ackFirst, last);
            Causal(m, states[0], inputs) && RunInputs(m, states[0], inputs) == states[5]
  {
    var inputs := FirstInputs(first) + LastInputs(ackFirst, last);
    TotalsAre(ackFirst, first, last);
    assert Traces(m, states, inputs);
    TracedRun(m, states, inputs);
  }

  function States(cfg: Config, room: nat, ackFirst: bool, wire: Octets): seq<H> {
    var s := Opened(cfg, room);
    [Connected(cfg, false, room), Ack(Connected(cfg, false, room)), Versioned(cfg, room), s,
     if ackFirst then Ack(s) else Receive(s, wire),
     if ackFirst then Receive(Ack(s), wire) else Ack(Receive(s, wire))]
  }

  lemma FirstSteps(cfg: Config, room: nat, w: Msg)
    requires cfg.security.usePlain && IsWelcome(w) && Admits(cfg.maxMsgSize, |w.data|)
    ensures Receive(Ack(Connected(cfg, false, room)), Prelude() + ServerTail()) == Versioned(cfg, room)
    ensures Opened(cfg, room) == Ack(Versioned(cfg, room)) && Awaits(Opened(cfg, room), w) && |Opened(cfg, room).ops| == 3
    ensures |Connected(cfg, false, room).ops| == 1 && |Versioned(cfg, room).ops| == 2
  {
    VersionRead(cfg, room);
    GreetingRead(cfg, room);
    HelloSent(cfg, room, w);
  }

  lemma LastSteps(s: H, w: Msg, wire: Octets)
    requires Awaits(s, w) && wire == EncodeFrame(w) && |s.ops| == 3
    ensures |Ack(s).ops| == 3 && |Receive(s, wire).ops| == 4 && wire != []
  {
    WelcomeRead(s, w, wire);
    WelcomeTaken(s.cfg.maxMsgSize, w, wire);
    AckIgnored(s);
  }

  /** The run with any WELCOME the configuration takes. */
  lemma RunEnds(cfg: Config, room: nat, ackFirst: bool, w: Msg, wire: Octets)
    requires cfg.security.usePlain && IsWelcome(w) && Admits(cfg.maxMsgSize, |w.data|) && wire == EncodeFrame(w)
    ensures var s, inputs := Connected(cfg, false, room), FirstInputs(Prelude() + ServerTail()) + LastInputs(ackFirst, wire);
            Causal(Session(), s, inputs) && RunInputs(Session(), s, inputs) == States(cfg, room, ackFirst, wire)[5]
  {
    FirstSteps(cfg, room, w);
    LastSteps(Opened(cfg, room), w, wire);
    StepwiseRuns(Session(), States(cfg, room, ackFirst, wire), Prelude() + ServerTail(), wire, ackFirst);
  }

  lemma EventsRun(cfg: Config, room: nat, ackFirst: bool, w: Msg, wire: Octets)
    requires cfg.security.usePlain && IsWelcome(w) && Admits(cfg.maxMsgSize, |w.data|) && wire == EncodeFrame(w) && wire != []
    ensures var s, es := Connected(cfg, false, room), Events(ackFirst, wire);
            Causal(Session(), s, Inputs(es)) && Run(s, es) == States(cfg, room, ackFirst, wire)[5]
  {
    InputsAre(ackFirst, wire);
    RunEnds(cfg, room, ackFirst, w, wire);
    RunApplies(Connected(cfg, false, room), Events(ackFirst, wire));
  }

  lemma LastPhases(cfg: Config, room: nat, w: Msg, wire: Octets)
    requires cfg.security.usePlain && IsWelcome(w) && Admits(cfg.maxMsgSize, |w.data|) && wire == EncodeFrame(w)
    ensures States(cfg, room, true, wire)[5].phase == ReadyClientSend
    ensures States(cfg, room, false, wire)[5].phase == ReadyClientWaitServer
  {
    FirstSteps(cfg, room, w);
    OrderMatters(Opened(cfg, room), w, wire);
  }

  /** Two causal runs of a PLAIN client, without timeouts, that receive the same octets and as many
      acknowledgements, and end in different phases: `InterleavingIrrelevant` does not extend to
      PLAIN, whatever the credentials and the rest of the configuration. */
  lemma PlainOrderMatters(cfg: Config, room: nat, w: Msg)
    requires cfg.security.usePlain && IsWelcome(w) && Admits(cfg.maxMsgSize, |w.data|)
    ensures var s, es, fs := Connected(cfg, false, room), Events(true, EncodeFrame(w)), Events(false, EncodeFrame(w));
            && Undisturbed(es) && Undisturbed(fs)
            && Causal(Session(), s, Inputs(es)) && Causal(Session(), s, Inputs(fs))
            && OctetsOf(Inputs(es)) == OctetsOf(Inputs(fs)) && AcksOf(Inputs(es)) == AcksOf(Inputs(fs))
            && Run(s, es).phase == ReadyClientSend && Run(s, fs).phase == ReadyClientWaitServer
  {
    var wire := EncodeFrame(w);
    WelcomeTaken(cfg.maxMsgSize, w, wire);
    InputsAre(true, wire);
    InputsAre(false, wire);
    TotalsAre(true, Prelude() + ServerTail(), wire);
    TotalsAre(false, Prelude() + ServerTail(), wire);
    EventsRun(cfg, room, true, w, wire);
    EventsRun(cfg, room, false, w, wire);
    LastPhases(cfg, room, w, wire);
  }

  /** What `InterleavingIrrelevant` says of a configuration. */
  ghost predicate OrderIrrelevant(cfg: Config, isServer: bool, room: nat) {
    forall es: seq<Event>, fs: seq<Event> :: Alike(cfg, isServer, room, es, fs) ==>
      Run(Connected(cfg, isServer, room), es) == Run(Connected(cfg, isServer, room), fs)
  }

  /** Undisturbed causal runs with the same octets and as many acknowledgements. */
  ghost predicate Alike(cfg: Config, isServer: bool, room: nat, es: seq<Event>, fs: seq<Event>) {
    var s := Connected(cfg, isServer, room);
    && Undisturbed(es) && Undisturbed(fs)
    && Causal(Session(), s, Inputs(es)) && Causal(Session(), s, Inputs(fs))
    && OctetsOf(Inputs(es)) == OctetsOf(Inputs(fs)) && AcksOf(Inputs(es)) == AcksOf(Inputs(fs))
  }

  lemma NullIrrelevant(cfg: Config, isServer: bool, room: nat)
    requires NullOnly(cfg.security)
    ensures OrderIrrelevant(cfg, isServer, room)
  {
    forall es: seq<Event>, fs: seq<Event> | Alike(cfg, isServer, room, es, fs)
      ensures Run(Connected(cfg, isServer, room), es) == Run(Connected(cfg, isServer, room), fs)
    {
      InterleavingIrrelevant(cfg, isServer, room, es, fs);
    }
  }

  /** Without NOISE_XX, and with a limit that admits the bare WELCOME, the order is irrelevant to a
      client exactly when PLAIN is not enabled. */
  lemma ClientOrderIff(cfg: Config, room: nat)
    requires cfg.security.noise.None? && Admits(cfg.maxMsgSize, 8)
    ensures OrderIrrelevant(cfg, false, room) <==> !cfg.security.usePlain
  {
    if cfg.security.usePlain {
      var w := WelcomeExists();
      PlainOrderMatters(cfg, room, w);
      assert Alike(cfg, false, room, Events(true, EncodeFrame(w)), Events(false, EncodeFrame(w)));
    } else {
      NullIrrelevant(cfg, false, room);
    }
  }
}
