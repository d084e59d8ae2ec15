/** The handler's phase loop and its entry points, each a function of the whole state. */
module HandlerSteps {
  import opened Bytes
  import opened Frames
  import opened Framers
  import opened Commands
  import opened Greeting
  import opened Mechanisms
  import opened Handler

  // --- Every round of the loop makes the measure smaller ---

  lemma {:induction false} DataLoopShrinks(s: H, progress: bool)
    ensures var f := DataLoop(s, progress);
            f.Next? ==>
              && f.s.phase == s.phase && f.s.mech == s.mech && f.s.greeting == s.greeting
              && |f.s.acc| <= |s.acc|
              && (f.progress && !progress ==> SmallerInput(f.s, s))
              && (progress ==> f.progress)
    decreases |s.acc|, DecryptedLeft(s.framer), BodyPending(s.framer)
  {
    TryReadConsumes(s.framer, s.cfg.maxMsgSize, s.acc);
    var o := TryRead(s.framer, s.cfg.maxMsgSize, s.acc);
    if o.res.Frame? {
      var f := HandleFrame(Take(s, o), o.res.msg);
      HandleFrameKeeps(Take(s, o), o.res.msg);
      if f.Next? {
        DataLoopShrinks(f.s, true);
        DataLoopReads(f.s, true);
      }
    }
  }

  /** Reading goes on from where it is: it never gets larger input than it started with. */
  lemma {:induction false} DataLoopReads(s: H, progress: bool)
    ensures var f := DataLoop(s, progress); f.Next? ==> |f.s.acc| < |s.acc| || NotLargerInput(f.s, s)
    decreases |s.acc|, DecryptedLeft(s.framer), BodyPending(s.framer)
  {
    TryReadConsumes(s.framer, s.cfg.maxMsgSize, s.acc);
    NothingKeeps(s.framer, s.cfg.maxMsgSize, s.acc);
    var o := TryRead(s.framer, s.cfg.maxMsgSize, s.acc);
    if o.res.Frame? {
      var f := HandleFrame(Take(s, o), o.res.msg);
      HandleFrameKeeps(Take(s, o), o.res.msg);
      if f.Next? {
        DataLoopReads(f.s, true);
      }
    }
  }

  /** A read that finds nothing complete has still not added anything. */
  lemma NothingKeeps(f: Framer, max: int, net: Octets)
    ensures var o := TryRead(f, max, net);
            o.res.Nothing? ==>
              || |o.net| < |net|
              || DecryptedLeft(o.framer) < DecryptedLeft(f)
              || (DecryptedLeft(o.framer) == DecryptedLeft(f) && o.framer.parser == f.parser)
    decreases |net|
  {
    match f
    case Plain(parser) => ParseConsumes(parser, max, net);
    case Secure(cipher, parser, decrypted) =>
      ParseConsumes(parser, max, decrypted);
      var o := Parse(parser, max, decrypted);
      if o.res.NeedMore? && FirstBlock(net).Some? {
        var block := FirstBlock(net).value;
        var plain := cipher.decrypt(cipher.received, block.body);
        if plain.Some? {
          TryReadConsumes(Secure(cipher.(received := cipher.received + [plain.value]), o.state, o.rest + plain.value), max, block.rest);
        }
      }
  }

  lemma AskTokenKeeps(s: H, m: Mechanism)
    requires s.mech == Some(m)
    ensures var a := AskToken(s, m);
            && a.s.phase == s.phase && a.s.greeting == s.greeting && a.s.acc == s.acc && a.s.mech == Some(a.mech)
            && a.s.framer.parser == s.framer.parser && DecryptedLeft(a.s.framer) == DecryptedLeft(s.framer)
            && TokensLeft(a.s) <= TokensLeft(s) && (a.sent ==> TokensLeft(a.s) < TokensLeft(s))
  {
    ProduceUsesStep(m);
    var p := ProduceToken(m);
    if p.token.Some? {
      SendCommandKeeps(s.(mech := Some(p.mech)), Msg(p.token.value, false, true));
    }
  }

  lemma AfterTokensEnds(s: H, m: Mechanism, acted: bool)
    requires s.phase == SecurityExchange
    ensures var f := AfterTokens(s, m, acted);
            f.Next? ==> Rank(f.s.phase) == 6 || (f.s == s && f.progress == acted)
  {
    LeaveSecurityAdvances(s, m);
  }

  lemma LeaveSecurityAdvances(s: H, m: Mechanism)
    requires s.phase == SecurityExchange
    ensures LeaveSecurity(s, m).Next? ==> Rank(LeaveSecurity(s, m).s.phase) == 6
  {
  }

  /** What reading a token may come to. */
  predicate TokenShrunk(s: H, f: Flow, acted: bool) {
    f.Next? ==>
      || Rank(f.s.phase) == 6
      || (&& f.s.phase == s.phase && f.s.greeting == s.greeting && TokensLeft(f.s) <= TokensLeft(s)
          && |f.s.acc| <= |s.acc|
          && (f.progress && !acted ==> SmallerInput(f.s, s)))
  }

  lemma GotTokenShrinks(s: H, t: H, m: Mechanism, data: Octets, acted: bool)
    requires s.phase == SecurityExchange && s.mech == Some(m)
    requires t == s.(framer := t.framer, acc := t.acc) && |t.acc| <= |s.acc| && SmallerInput(t, s)
    ensures TokenShrunk(s, GotToken(t, ProcessToken(m, data)), acted)
  {
    ProcessUsesStep(m, data);
    var p := ProcessToken(m, data);
    if p.ok {
      var u := t.(mech := Some(p.mech));
      AskTokenKeeps(u, p.mech);
      var b := AskToken(u, p.mech);
      AfterTokensEnds(b.s, b.mech, true);
    }
  }

  lemma ReadTokenShrinks(s: H, m: Mechanism, acted: bool)
    requires s.phase == SecurityExchange && s.mech == Some(m)
    ensures TokenShrunk(s, ReadToken(s, m, acted), acted)
  {
    AfterTokensEnds(s, m, acted);
    if s.acc != [] {
      var o := TryRead(s.framer, s.cfg.maxMsgSize, s.acc);
      TryReadConsumes(s.framer, s.cfg.maxMsgSize, s.acc);
      var t := Take(s, o);
      AfterTokensEnds(t, m, acted);
      if o.res.Frame? && o.res.msg.command {
        GotTokenShrinks(s, t, m, o.res.msg.data, acted);
      }
    }
  }

  lemma ArmSecurityShrinks(s: H)
    requires s.phase == SecurityExchange
    ensures var f := ArmSecurity(s); f.Next? && Changed(s, f.s, f.progress) ==> Smaller(f.s, s)
  {
    if s.mech.Some? {
      var m := s.mech.value;
      if Complete(m) {
        LeaveSecurityAdvances(s, m);
      } else {
        AskTokenKeeps(s, m);
        var a := AskToken(s, m);
        ReadTokenShrinks(a.s, a.mech, a.sent);
      }
    }
  }

  lemma ArmReadyAdvances(s: H)
    requires s.phase == ReadyServerWaitClient || s.phase == ReadyClientWaitServer
    ensures ArmReady(s).Next? ==> Rank(ArmReady(s).s.phase) > Rank(s.phase)
  {
  }

  lemma OnRevisionAdvances(s: H, revision: Option<Byte>)
    ensures OnRevision(s, revision).Next? ==> Rank(OnRevision(s, revision).s.phase) == 3
  {
  }

  lemma OnGreetingAdvances(s: H, g: Option<V3Greeting>)
    ensures OnGreeting(s, g).Next? ==> Rank(OnGreeting(s, g).s.phase) == 5
  {
  }

  lemma OnIdentityAdvances(s: H, res: ReadRes)
    ensures OnIdentity(s, res).Next? ==> Rank(OnIdentity(s, res).s.phase) == 8
  {
  }

  lemma ArmGreetingAdvances(s: H)
    ensures s.phase == WaitPeerRevision && ArmPeerRevision(s).Next? ==> Rank(ArmPeerRevision(s).s.phase) == 3
    ensures s.phase == WaitV3Greeting && ArmV3Greeting(s).Next? ==> Rank(ArmV3Greeting(s).s.phase) == 5
    ensures s.phase == V2GreetingExchange && ArmV2Greeting(s).Next? ==> Rank(ArmV2Greeting(s).s.phase) == 5
    ensures s.phase == V2WaitIdentity && ArmV2Identity(s).Next? ==> Rank(ArmV2Identity(s).s.phase) == 8
  {
    match s.phase
    case WaitPeerRevision =>
      var f := Fill(s, PEEK_LENGTH);
      if |f.greeting| >= PEEK_LENGTH {
        OnRevisionAdvances(f, PeekRevision(f.greeting[..PEEK_LENGTH]));
      }
    case WaitV3Greeting =>
      var f := Fill(s, GREETING_LENGTH);
      if |f.greeting| >= GREETING_LENGTH {
        OnGreetingAdvances(f.(greeting := f.greeting[GREETING_LENGTH..]), DecodeV3(f.greeting));
      }
    case V2WaitIdentity =>
      var o := TryRead(s.framer, s.cfg.maxMsgSize, s.acc);
      OnIdentityAdvances(Take(s, o), o.res);
    case _ =>
  }

  /** The loop's measure decreases on every round that is not the last. */
  lemma ArmShrinks(s: H)
    ensures var f := Arm(s); f.Next? && Changed(s, f.s, f.progress) ==> Smaller(f.s, s)
  {
    match s.phase
    case DataPhase => DataLoopShrinks(s, false);
    case SecurityExchange => ArmSecurityShrinks(s);
    case ReadyServerWaitClient => ArmReadyAdvances(s);
    case ReadyClientWaitServer => ArmReadyAdvances(s);
    case _ => ArmGreetingAdvances(s);
  }

  // --- The phase loop ---

  /** When the handshake deadline passes, counted in rounds of the loop. */
  datatype Clock = Never | After(rounds: nat)

  function Tick(t: Clock): Clock {
    if t.After? && t.rounds > 0 then After(t.rounds - 1) else t
  }

  predicate Overdue(s: H, t: Clock) {
    t == After(0) && s.phase != DataPhase && !Final(s.phase)
  }

  datatype Done = Done(s: H, error: Option<ErrorKind>)

  /** `process_buffered_reads`. */
  function ProcessBuffered(s: H, t: Clock): Done
    decreases RankLeft(s), TokensLeft(s), |s.acc|, DecryptedLeft(s.framer), BodyPending(s.framer)
  {
    if Overdue(s, t) then Done(ToError(s, Timeout), Some(Timeout))
    else
      ArmShrinks(s);
      match Arm(s)
      case Stop(u) => Done(u, None)
      case Fail(u, e) => Done(u, Some(e))
      case Next(u, progress) =>
        if Changed(s, u, progress) then ProcessBuffered(u, Tick(t)) else Done(u, None)
  }

  /** An error that left the phase alone is turned into the error phase by the caller. */
  function Settle(d: Done): H {
    if d.error.Some? && !Final(d.s.phase) then ToError(d.s, d.error.value) else d.s
  }

  function Process(s: H, t: Clock): H { Settle(ProcessBuffered(s, t)) }

  /** Processing, round by round. */
  lemma ProcessStep(s: H, t: Clock)
    ensures Process(s, t) ==
            if Overdue(s, t) then ToError(s, Timeout)
            else
              match Arm(s)
              case Stop(u) => u
              case Fail(u, e) => Settle(Done(u, Some(e)))
              case Next(u, progress) => if Changed(s, u, progress) then Process(u, Tick(t)) else u
  {
    ArmShrinks(s);
  }

  /** What the loop has after a round, an error settled. */
  function AfterRound(f: Flow): H {
    if f.Fail? then Settle(Done(f.s, Some(f.error))) else f.s
  }

  /** Induction over rounds: what every round keeps, processing keeps. */
  lemma {:induction false} ProcessInduct(inv: H -> bool, s: H)
    requires inv(s) && forall u: H :: inv(u) ==> inv(AfterRound(Arm(u)))
    ensures inv(Process(s, Never))
    decreases RankLeft(s), TokensLeft(s), |s.acc|, DecryptedLeft(s.framer), BodyPending(s.framer)
  {
    ProcessStep(s, Never);
    var f := Arm(s);
    assert inv(AfterRound(f));
    if f.Next? && Changed(s, f.s, f.progress) {
      ArmShrinks(s);
      ProcessInduct(inv, f.s);
    }
  }

  // --- Entry points ---

  function ConnectionReady(s: H): H {
    Emit(s, Prelude(), Control).(phase := SendSignature)
  }

  /** `process_ring_read_data`; an empty chunk is end of stream. */
  function ReadData(s: H, chunk: Octets, t: Clock): H {
    if chunk == [] && !Final(s.phase) then
      var u := ToError(s, ConnectionClosed);
      if s.phase == DataPhase then TrySend(u, Fault(ConnectionClosed)).s else u
    else Process(s.(acc := s.acc + chunk), t)
  }

  datatype Completion = Acked | Again | Fatal

  /** Frame and send the message at the head of the queue; it goes back if framing fails. */
  function DrainOne(s: H): H {
    if s.queue == [] then s else DrainHead(s, Write(s.framer, s.queue[0]))
  }

  function DrainHead(s: H, w: Option<Written>): H
    requires s.queue != []
  {
    if w.None? then ToError(s, Internal)
    else EmitApp(s.(framer := w.value.framer, queue := s.queue[1..]), w.value.wire, s.queue[0])
  }

  function AckPhase(p: Phase): Phase {
    match p
    case SendSignature => WaitPeerRevision
    case SendV3Tail => WaitV3Greeting
    case SendV2Tail => V2GreetingExchange
    case V2SendIdentity => V2WaitIdentity
    case ReadyClientSend => ReadyClientWaitServer
    case ReadyServerSend => DataPhase
    case _ => p
  }

  /** `handle_internal_sqe_completion`. A would-block result is treated like a success. */
  function SendCompleted(s: H, c: Completion, t: Clock): H {
    if c == Fatal then ToError(s, IoError)
    else if s.phase == DataPhase then
      DrainOne(if s.pingSent then s.(waitingPong := true, pingSent := false) else s)
    else if s.phase == ReadyServerSend then Announced(Announce(s.(phase := DataPhase)), t)
    else if AckPhase(s.phase) == s.phase then s
    else Resume(s.(phase := AckPhase(s.phase)), t)
  }

  function Announced(a: Tried, t: Clock): H {
    if a.ok then Resume(a.s, t) else ToError(a.s, Internal)
  }

  /** Octets that came before the acknowledgement are looked at now. */
  function Resume(s: H, t: Clock): H {
    if s.greeting == [] && s.acc == [] then s else Process(s, t)
  }

  /** What the clock and the multishot reader say when `prepare_sqes` is called. */
  datatype Poll = Poll(deadline: bool, readIntent: bool, pongLate: bool, beatDue: bool)

  function PingMessage(): Msg { PingMsg(0, Ascii("hb_ping")) }

  function Prepare(s: H, p: Poll): H {
    if p.deadline && s.phase != DataPhase && !Final(s.phase) then ToError(s, Timeout)
    else if p.readIntent then s.(ops := s.ops + [StartRead])
    else if s.phase != DataPhase then s
    else if s.queue != [] then DrainOne(s)
    else if s.waitingPong then
      if p.pongLate then ToError(s, Timeout) else s
    else if s.cfg.heartbeat && s.version != Some(V2) && p.beatDue then
      match SendCommand(s, PingMessage())
      case None => ToError(s, Internal)
      case Some(u) => u.(pingSent := true)
    else s
  }

  /** `handle_outgoing_app_data` for a multipart message. */
  function Submit(s: H, parts: seq<Msg>): H {
    if s.phase == DataPhase && s.queue == [] then
      match Write(s.framer, parts)
      case None => s.(queue := [parts])
      case Some(w) => EmitApp(s.(framer := w.framer), w.wire, parts)
    else s.(queue := s.queue + [parts])
  }

  function CloseInitiated(s: H): H {
    if s.phase == ClosingPhase || Final(s.phase) then s else s.(phase := ClosingPhase, queue := [])
  }

  function FdClosed(s: H): H { s.(phase := ClosedPhase) }

  /** Everything that can happen to a connection after it is set up. */
  datatype Event =
    | Read(chunk: Octets, clock: Clock)
    | Completed(result: Completion, clock: Clock)
    | Polled(poll: Poll)
    | Submitted(parts: seq<Msg>)
    | CloseAsked
    | FdGone
    | UpstreamDrained(slots: nat)

  function Step(s: H, e: Event): H {
    match e
    case Read(chunk, t) => ReadData(s, chunk, t)
    case Completed(c, t) => SendCompleted(s, c, t)
    case Polled(p) => Prepare(s, p)
    case Submitted(parts) => Submit(s, parts)
    case CloseAsked => CloseInitiated(s)
    case FdGone => FdClosed(s)
    case UpstreamDrained(n) => s.(room := s.room + n)
  }

  /** A handler as the worker creates it: new, and told at once that it is connected. */
  function Connected(cfg: Config, isServer: bool, room: nat): H {
    ConnectionReady(New(cfg, isServer, room))
  }

  function Run(s: H, es: seq<Event>): H {
    if es == [] then s else Step(Run(s, es[..|es| - 1]), es[|es| - 1])
  }
}
