/** The handler as the source keeps it: one object whose fields each call updates in place. Every
    method is proved to take the whole state to what the step functions say. */
module HandlerObject {
  import opened Bytes
  import opened Frames
  import opened Framers
  import opened Commands
  import opened Greeting
  import opened Mechanisms
  import opened Handler
  import opened HandlerSteps

  /** How a phase handler leaves the loop body. */
  datatype Outcome = Continue(progress: bool) | Break | Return(error: ErrorKind)

  function OutcomeOf(f: Flow): Outcome {
    match f
    case Next(_, progress) => Continue(progress)
    case Stop(_) => Break
    case Fail(_, e) => Return(e)
  }

  class ZmtpUringHandler {
    const cfg: Config
    const isServer: bool
    var phase: Phase
    var greeting: Octets
    var acc: Octets
    var mech: Option<Mechanism>
    var framer: Framer
    var waitingPong: bool
    var pingSent: bool
    var queue: seq<seq<Msg>>
    var framed: seq<seq<Msg>>
    var idSecurity: Option<Octets>
    var idReady: Option<Octets>
    var finalId: Option<Octets>
    var version: Option<Version>
    var room: nat
    var events: seq<UpEvent>
    var ops: seq<Blueprint>

    ghost function State(): H
      reads this
    {
      H(cfg, isServer, phase, greeting, acc, mech, framer, waitingPong, pingSent, queue, framed,
        idSecurity, idReady, finalId, version, room, events, ops)
    }

    constructor (cfg: Config, isServer: bool, room: nat)
      ensures State() == New(cfg, isServer, room)
    {
      this.cfg, this.isServer, this.room := cfg, isServer, room;
      phase := Initial;
      greeting, acc := [], [];
      mech, framer := None, Plain(ReadHeader);
      waitingPong, pingSent := false, false;
      queue, framed := [], [];
      idSecurity, idReady, finalId, version := None, None, None, None;
      events, ops := [], [];
    }

    // --- Effects ---

    method TrySendUp(e: UpEvent) returns (ok: bool)
      modifies this
      ensures State() == TrySend(old(State()), e).s && ok == TrySend(old(State()), e).ok
    {
      ok := room > 0;
      if ok {
        room := room - 1;
        events := events + [e];
      }
    }

    method RequestCloseOnce()
      modifies this`ops
      ensures ops == WithClose(old(ops))
    {
      if RequestClose !in ops {
        ops := ops + [RequestClose];
      }
    }

    method TransitionToError(e: ErrorKind)
      modifies this
      ensures State() == ToError(old(State()), e)
    {
      if phase == ErrorPhase || phase == ClosedPhase {
        return;
      }
      var before := phase;
      phase := ErrorPhase;
      RequestCloseOnce();
      if before != DataPhase {
        var _ := TrySendUp(Fault(e));
      }
    }

    method Push(data: Octets, content: Content)
      modifies this`ops
      ensures State() == Emit(old(State()), data, content)
    {
      ops := ops + [Send(data, content, framer.Secure?, false)];
    }

    method PushCommand(m: Msg) returns (ok: bool)
      modifies this`ops, this`framer
      ensures ok == SendCommand(old(State()), m).Some?
      ensures State() == if ok then SendCommand(old(State()), m).value else old(State())
    {
      var w := Write(framer, [m]);
      ok := w.Some?;
      if ok {
        framer := w.value.framer;
        Push(w.value.wire, CommandFrame(m));
      }
    }

    method PushApp(data: Octets, parts: seq<Msg>)
      modifies this`ops, this`framed
      ensures State() == EmitApp(old(State()), data, parts)
    {
      framed := framed + [parts];
      if data != [] {
        ops := ops + [Send(data, AppParts(parts), framer.Secure?, cfg.zeroCopy && |data| > ZC_SEND_THRESHOLD)];
      }
    }

    method SignalHandshakeComplete() returns (ok: bool)
      modifies this
      ensures State() == Announce(old(State())).s && ok == Announce(old(State())).ok
    {
      finalId := Or(idReady, idSecurity);
      ok := TrySendUp(HandshakeComplete(finalId));
    }

    // --- Phase handlers ---

    method FillGreeting(target: nat)
      modifies this`greeting, this`acc
      ensures State() == Fill(old(State()), target)
    {
      if |greeting| < target {
        var k := Missing(|greeting|, |acc|, target);
        greeting := greeting + acc[..k];
        acc := acc[k..];
      }
    }

    method WaitPeerRevisionArm() returns (out: Outcome)
      modifies this
      ensures State() == ArmPeerRevision(old(State())).s && out == OutcomeOf(ArmPeerRevision(old(State())))
    {
      FillGreeting(PEEK_LENGTH);
      if |greeting| < PEEK_LENGTH {
        return Break;
      }
      var revision := PeekRevision(greeting[..PEEK_LENGTH]);
      if revision == Some(V2_REVISION) && cfg.allowV2 {
        var code := SocketTypeCode(cfg.socketType);
        if code.Some? {
          version := Some(V2);
          Push([code.value], Control);
          phase := SendV2Tail;
          return Continue(true);
        }
      } else if revision.Some? && revision.value >= MAJOR {
        Push(V3Tail(Proposed(cfg.security, isServer), isServer), Control);
        phase := SendV3Tail;
        return Continue(true);
      }
      TransitionToError(ProtocolViolation);
      out := Return(ProtocolViolation);
    }

    method WaitV3GreetingArm() returns (out: Outcome)
      modifies this
      ensures State() == ArmV3Greeting(old(State())).s && out == OutcomeOf(ArmV3Greeting(old(State())))
    {
      FillGreeting(GREETING_LENGTH);
      if |greeting| < GREETING_LENGTH {
        return Break;
      }
      var g := DecodeV3(greeting);
      greeting := greeting[GREETING_LENGTH..];
      if g.None? {
        TransitionToError(ProtocolViolation);
        return Return(ProtocolViolation);
      }
      if isServer == g.value.asServer {
        TransitionToError(SecurityError);
        return Return(SecurityError);
      }
      version := Some(V3(g.value.minor));
      var chosen := Negotiate(cfg.security, isServer, g.value.mechanism);
      if chosen.None? {
        return Return(SecurityError);
      }
      mech := chosen;
      phase := SecurityExchange;
      out := Continue(true);
    }

    method V2GreetingArm() returns (out: Outcome)
      modifies this
      ensures State() == ArmV2Greeting(old(State())).s && out == OutcomeOf(ArmV2Greeting(old(State())))
    {
      FillGreeting(V2_GREETING_LENGTH);
      if |greeting| < V2_GREETING_LENGTH {
        return Break;
      }
      var peer := greeting[11];
      greeting := greeting[V2_GREETING_LENGTH..];
      if !V2Compatible(cfg.socketType, peer) {
        TransitionToError(ProtocolViolation);
        return Return(ProtocolViolation);
      }
      Push([0, 0], Control);
      phase := V2SendIdentity;
      out := Continue(true);
    }

    method ReadFrame() returns (res: ReadRes)
      modifies this`framer, this`acc
      ensures var o := old(TryRead(framer, cfg.maxMsgSize, acc));
              State() == Take(old(State()), o) && res == o.res
    {
      var o := TryRead(framer, cfg.maxMsgSize, acc);
      framer, acc, res := o.framer, o.net, o.res;
    }

    method EnterDataPhase() returns (out: Outcome)
      modifies this
      ensures State() == EnterData(old(State())).s && out == OutcomeOf(EnterData(old(State())))
    {
      phase := DataPhase;
      var ok := SignalHandshakeComplete();
      out := if ok then Continue(true) else Return(Internal);
    }

    method V2IdentityArm() returns (out: Outcome)
      modifies this
      ensures State() == ArmV2Identity(old(State())).s && out == OutcomeOf(ArmV2Identity(old(State())))
    {
      if acc == [] {
        return Break;
      }
      var res := ReadFrame();
      if res.Nothing? {
        return Break;
      }
      if res.Failed? || res.msg.command || res.msg.more || |res.msg.data| > 255 {
        TransitionToError(ProtocolViolation);
        return Return(ProtocolViolation);
      }
      if res.msg.data != [] {
        idReady := Some(res.msg.data);
      }
      out := EnterDataPhase();
    }

    method PushReady(next: Phase) returns (out: Outcome)
      modifies this
      ensures State() == SendReady(old(State()), next).s && out == OutcomeOf(SendReady(old(State()), next))
    {
      var ok := PushCommand(OwnReady(cfg));
      if !ok {
        return Return(Internal);
      }
      phase := next;
      out := Continue(true);
    }

    method FinishSecurity(m: Mechanism) returns (out: Outcome)
      modifies this
      ensures State() == LeaveSecurity(old(State()), m).s && out == OutcomeOf(LeaveSecurity(old(State()), m))
    {
      mech := None;
      var done := IntoFramer(m);
      if done.None? {
        TransitionToError(InvalidState);
        return Return(Internal);
      }
      framer := done.value.framer;
      idSecurity := Or(idSecurity, done.value.peer);
      if isServer {
        phase := ReadyServerWaitClient;
        return Continue(true);
      }
      phase := ReadyClientSend;
      out := PushReady(ReadyClientSend);
    }

    method ProduceAndSend(m: Mechanism) returns (next: Mechanism, ok: bool, sent: bool)
      modifies this
      ensures var a := AskToken(old(State()), m);
              State() == a.s && next == a.mech && ok == a.ok && sent == a.sent
    {
      var p := ProduceToken(m);
      next, ok, sent := p.mech, p.ok, false;
      mech := Some(next);
      if ok && p.token.Some? {
        ok := PushCommand(Msg(p.token.value, false, true));
        sent := ok;
      }
    }

    method SecurityArm() returns (out: Outcome)
      modifies this
      ensures State() == ArmSecurity(old(State())).s && out == OutcomeOf(ArmSecurity(old(State())))
    {
      if mech.None? {
        TransitionToError(InvalidState);
        return Return(InvalidState);
      }
      var m := mech.value;
      if Complete(m) {
        out := FinishSecurity(m);
        return;
      }
      var ok, acted;
      m, ok, acted := ProduceAndSend(m);
      if !ok {
        return Return(SecurityError);
      }
      out := TokenArm(m, acted);
    }

    method TokenArm(m: Mechanism, acted: bool) returns (out: Outcome)
      modifies this
      ensures State() == ReadToken(old(State()), m, acted).s && out == OutcomeOf(ReadToken(old(State()), m, acted))
    {
      var res := Nothing;
      if acc != [] {
        res := ReadFrame();
      }
      if res.Nothing? {
        out := CheckSecurity(m, acted);
        return;
      }
      if res.Failed? || !res.msg.command {
        TransitionToError(SecurityError);
        return Return(SecurityError);
      }
      var p := ProcessToken(m, res.msg.data);
      mech := Some(p.mech);
      if !p.ok {
        return Return(SecurityError);
      }
      var next, ok, _ := ProduceAndSend(p.mech);
      if !ok {
        return Return(SecurityError);
      }
      out := CheckSecurity(next, true);
    }

    method CheckSecurity(m: Mechanism, acted: bool) returns (out: Outcome)
      modifies this
      ensures State() == AfterTokens(old(State()), m, acted).s && out == OutcomeOf(AfterTokens(old(State()), m, acted))
    {
      if Complete(m) {
        out := FinishSecurity(m);
      } else if InError(m) {
        TransitionToError(SecurityError);
        out := Return(SecurityError);
      } else if !acted && acc == [] {
        out := Break;
      } else {
        out := Continue(acted);
      }
    }

    method ReadyArm() returns (out: Outcome)
      modifies this
      ensures State() == ArmReady(old(State())).s && out == OutcomeOf(ArmReady(old(State())))
    {
      if acc == [] {
        return Break;
      }
      var res := ReadFrame();
      if res.Nothing? {
        return Break;
      }
      if res.Frame? {
        var c := CommandOf(res.msg);
        if c.Some? && c.value.Ready? {
          if IdentityName() in c.value.props {
            idReady := Some(c.value.props[IdentityName()]);
          }
          if phase == ReadyClientWaitServer {
            out := EnterDataPhase();
          } else {
            out := PushReady(ReadyServerSend);
          }
          return;
        }
      }
      TransitionToError(ProtocolViolation);
      out := Return(ProtocolViolation);
    }

    method HandleDataFrame(m: Msg) returns (out: Outcome)
      modifies this
      ensures State() == HandleFrame(old(State()), m).s && out == OutcomeOf(HandleFrame(old(State()), m))
    {
      if !m.command {
        var ok := TrySendUp(Data(m));
        if !ok {
          TransitionToError(Internal);
          return Return(Internal);
        }
        return Continue(true);
      }
      var c := CommandOf(m);
      if version == Some(V2) || (c.Some? && c.value.PeerError?) {
        TransitionToError(ProtocolViolation);
        return Return(ProtocolViolation);
      }
      if c.Some? && c.value.Ping? {
        var ok := PushCommand(PongMsg(c.value.context));
        if !ok {
          return Return(Internal);
        }
      } else if c.Some? && c.value.Pong? {
        waitingPong := false;
      }
      out := Continue(true);
    }

    /** The inner loop of the data phase. */
    method DataArm() returns (out: Outcome)
      modifies this
      ensures State() == DataLoop(old(State()), false).s && out == OutcomeOf(DataLoop(old(State()), false))
    {
      var progress := false;
      while true
        invariant DataLoop(State(), progress) == DataLoop(old(State()), false)
        decreases |acc|, DecryptedLeft(framer), BodyPending(framer)
      {
        ghost var o := TryRead(framer, cfg.maxMsgSize, acc);
        TryReadConsumes(framer, cfg.maxMsgSize, acc);
        var res := ReadFrame();
        if res.Nothing? {
          return Continue(progress);
        }
        if res.Failed? {
          TransitionToError(ProtocolViolation);
          return Return(ProtocolViolation);
        }
        HandleFrameKeeps(State(), res.msg);
        out := HandleDataFrame(res.msg);
        if !out.Continue? {
          return;
        }
        progress := true;
      }
    }

    method PhaseArm() returns (out: Outcome)
      modifies this
      ensures State() == Arm(old(State())).s && out == OutcomeOf(Arm(old(State())))
    {
      match phase {
        case Initial =>
          TransitionToError(InvalidState);
          out := Return(InvalidState);
        case WaitPeerRevision => out := WaitPeerRevisionArm();
        case WaitV3Greeting => out := WaitV3GreetingArm();
        case V2GreetingExchange => out := V2GreetingArm();
        case V2WaitIdentity => out := V2IdentityArm();
        case SecurityExchange => out := SecurityArm();
        case ReadyServerWaitClient => out := ReadyArm();
        case ReadyClientWaitServer => out := ReadyArm();
        case DataPhase => out := DataArm();
        case _ => out := Break;
      }
    }

    // --- Entry points ---

    /** The phase loop: goes round while something was done or consumed. */
    method ProcessBufferedReads(clock: Clock) returns (error: Option<ErrorKind>)
      modifies this
      ensures Done(State(), error) == ProcessBuffered(old(State()), clock)
    {
      var t := clock;
      while true
        invariant ProcessBuffered(State(), t) == ProcessBuffered(old(State()), clock)
        decreases RankLeft(State()), TokensLeft(State()), |acc|, DecryptedLeft(framer), BodyPending(framer)
      {
        if t == After(0) && phase != DataPhase && phase != ErrorPhase && phase != ClosedPhase {
          TransitionToError(Timeout);
          return Some(Timeout);
        }
        ArmShrinks(State());
        var greetingBefore, accBefore := |greeting|, |acc|;
        var out := PhaseArm();
        match out {
          case Break => return None;
          case Return(e) => return Some(e);
          case Continue(progress) =>
            if !progress && |greeting| == greetingBefore && |acc| == accBefore {
              return None;
            }
        }
        t := Tick(t);
      }
    }

    method ProcessAndSettle(clock: Clock)
      modifies this
      ensures State() == Process(old(State()), clock)
    {
      var error := ProcessBufferedReads(clock);
      if error.Some? && phase != ErrorPhase && phase != ClosedPhase {
        TransitionToError(error.value);
      }
    }

    method Connect()
      modifies this
      ensures State() == ConnectionReady(old(State()))
    {
      Push(Prelude(), Control);
      phase := SendSignature;
    }

    method ProcessRingReadData(chunk: Octets, clock: Clock)
      modifies this
      ensures State() == ReadData(old(State()), chunk, clock)
    {
      if chunk == [] && phase != ErrorPhase && phase != ClosedPhase {
        var before := phase;
        TransitionToError(ConnectionClosed);
        if before == DataPhase {
          var _ := TrySendUp(Fault(ConnectionClosed));
        }
        return;
      }
      acc := acc + chunk;
      ProcessAndSettle(clock);
    }

    method DrainQueueHead()
      modifies this
      ensures State() == DrainOne(old(State()))
    {
      if queue == [] {
        return;
      }
      var w := Write(framer, queue[0]);
      if w.None? {
        TransitionToError(Internal);
        return;
      }
      var parts := queue[0];
      queue := queue[1..];
      framer := w.value.framer;
      PushApp(w.value.wire, parts);
    }

    method ProcessLeftovers(clock: Clock)
      modifies this
      ensures State() == Resume(old(State()), clock)
    {
      if greeting != [] || acc != [] {
        ProcessAndSettle(clock);
      }
    }

    method FinishServerReady(clock: Clock)
      modifies this
      ensures State() == Announced(Announce(old(State())), clock)
    {
      var ok := SignalHandshakeComplete();
      if ok {
        ProcessLeftovers(clock);
      } else {
        TransitionToError(Internal);
      }
    }

    method AcknowledgeData()
      modifies this
      ensures var s := old(State());
              State() == DrainOne(if s.pingSent then s.(waitingPong := true, pingSent := false) else s)
    {
      if pingSent {
        waitingPong := true;
        pingSent := false;
      }
      DrainQueueHead();
    }

    method HandleInternalSqeCompletion(c: Completion, clock: Clock)
      modifies this
      ensures State() == SendCompleted(old(State()), c, clock)
    {
      if c == Fatal {
        TransitionToError(IoError);
      } else if phase == DataPhase {
        AcknowledgeData();
      } else if phase == ReadyServerSend {
        phase := DataPhase;
        FinishServerReady(clock);
      } else if AckPhase(phase) != phase {
        phase := AckPhase(phase);
        ProcessLeftovers(clock);
      }
    }

    method PrepareSqes(p: Poll)
      modifies this
      ensures State() == Prepare(old(State()), p)
    {
      if p.deadline && phase != DataPhase && phase != ErrorPhase && phase != ClosedPhase {
        TransitionToError(Timeout);
      } else if p.readIntent {
        ops := ops + [StartRead];
      } else if phase == DataPhase {
        if queue != [] {
          DrainQueueHead();
        } else if waitingPong {
          if p.pongLate {
            TransitionToError(Timeout);
          }
        } else if cfg.heartbeat && version != Some(V2) && p.beatDue {
          var ok := PushCommand(PingMessage());
          if ok {
            pingSent := true;
          } else {
            TransitionToError(Internal);
          }
        }
      }
    }

    method HandleOutgoingAppData(parts: seq<Msg>)
      modifies this
      ensures State() == Submit(old(State()), parts)
    {
      if phase != DataPhase || queue != [] {
        queue := queue + [parts];
        return;
      }
      var w := Write(framer, parts);
      if w.None? {
        queue := [parts];
        return;
      }
      framer := w.value.framer;
      PushApp(w.value.wire, parts);
    }

    method Close()
      modifies this
      ensures State() == CloseInitiated(old(State()))
    {
      if phase != ClosingPhase && phase != ErrorPhase && phase != ClosedPhase {
        phase := ClosingPhase;
        queue := [];
      }
    }
  }
}
