/** Sessions negotiated as ZMTP/2.0: no security, no READY, no command frame and no heartbeat in
    either direction. */
module HandlerV2 {
  import opened Bytes
  import opened Frames
  import opened Framers
  import opened Greeting
  import opened Handler
  import opened HandlerSteps
  import opened HandlerRuns

  /** Before the peer's version is known. */
  predicate Early(p: Phase) { p == SendSignature || p == WaitPeerRevision }

  predicate V2Handshake(p: Phase) {
    p == SendV2Tail || p == V2GreetingExchange || p == V2SendIdentity || p == V2WaitIdentity
  }

  /** The phases a ZMTP/2.0 session can be in. */
  predicate V2Phase(p: Phase) {
    V2Handshake(p) || p == DataPhase || p == ClosingPhase || Final(p)
  }

  /** What may be handed to the worker: unencrypted greeting octets, the empty identity frame, and
      application messages that were framed as they were submitted. Never a command frame. */
  predicate V2Op(b: Blueprint, framed: seq<seq<Msg>>) {
    b.Send? ==>
      && !b.secure
      && !b.content.CommandFrame?
      && (b.content.Control? ==> b.data == Prelude() || (|b.data| == 1 && b.data[0] < 9) || b.data == [0, 0])
      && (b.content.AppParts? ==> b.data == EncodeAll(b.content.parts) && b.content.parts in framed)
  }

  predicate V2Ops(s: H) {
    forall i :: 0 <= i < |s.ops| ==> V2Op(s.ops[i], s.framed)
  }

  predicate V2Inv(s: H) {
    && s.phase != Initial
    && (s.version == Some(V2) ==> V2Phase(s.phase))
    && (V2Handshake(s.phase) ==> s.version == Some(V2))
    && (Early(s.phase) || s.version == Some(V2) ==> s.framer.Plain? && !s.pingSent && V2Ops(s))
  }

  /** The session has been negotiated as something else. */
  predicate NotV2(s: H) {
    s.phase != Initial && !Early(s.phase) && !V2Handshake(s.phase) && s.version != Some(V2)
  }

  lemma NotV2Inv(s: H)
    requires NotV2(s)
    ensures V2Inv(s)
  {
  }

  lemma EvolvesNotV2(s: H, t: H)
    requires NotV2(s) && Evolves(s, t) && s.phase != WaitV3Greeting
    ensures NotV2(t)
  {
  }

  // --- Rounds of the phase loop ---

  lemma ToErrorV2(s: H, e: ErrorKind)
    requires V2Inv(s)
    ensures V2Inv(ToError(s, e))
  {
  }

  lemma OnRevisionV2(s: H, revision: Option<Byte>)
    requires V2Inv(s) && s.phase == WaitPeerRevision
    ensures V2Inv(OnRevision(s, revision).s)
  {
    ToErrorV2(s, ProtocolViolation);
  }

  lemma OnGreetingV2(s: H, g: Option<V3Greeting>)
    requires NotV2(s) && s.phase == WaitV3Greeting
    ensures NotV2(OnGreeting(s, g).s)
  {
  }

  lemma OnV2PeerV2(s: H, compatible: bool)
    requires V2Inv(s) && s.phase == V2GreetingExchange
    ensures V2Inv(OnV2Peer(s, compatible).s)
  {
    ToErrorV2(s, ProtocolViolation);
  }

  lemma OnIdentityV2(s: H, res: ReadRes)
    requires V2Inv(s) && s.phase == V2WaitIdentity
    ensures V2Inv(OnIdentity(s, res).s)
  {
    ToErrorV2(s, ProtocolViolation);
  }

  lemma TakeV2(s: H)
    requires V2Inv(s)
    ensures V2Inv(Take(s, TryRead(s.framer, s.cfg.maxMsgSize, s.acc)))
  {
  }

  lemma HandleFrameV2(s: H, m: Msg)
    requires V2Inv(s) && s.phase == DataPhase && s.version == Some(V2)
    ensures V2Inv(HandleFrame(s, m).s)
  {
  }

  lemma {:induction false} DataLoopV2(s: H, progress: bool)
    requires V2Inv(s) && s.phase == DataPhase && s.version == Some(V2)
    ensures V2Inv(DataLoop(s, progress).s)
    decreases |s.acc|, DecryptedLeft(s.framer), BodyPending(s.framer)
  {
    TryReadConsumes(s.framer, s.cfg.maxMsgSize, s.acc);
    TakeV2(s);
    var o := TryRead(s.framer, s.cfg.maxMsgSize, s.acc);
    var t := Take(s, o);
    if o.res.Failed? {
      ToErrorV2(t, ProtocolViolation);
    } else if o.res.Frame? {
      HandleFrameV2(t, o.res.msg);
      HandleFrameOk(t, o.res.msg);
      HandleFrameKeeps(t, o.res.msg);
      var f := HandleFrame(t, o.res.msg);
      if f.Next? {
        DataLoopV2(f.s, true);
      }
    }
  }

  lemma GreetingV2(s: H)
    requires V2Inv(s)
    ensures s.phase == WaitPeerRevision ==> V2Inv(ArmPeerRevision(s).s)
    ensures s.phase == WaitV3Greeting ==> NotV2(ArmV3Greeting(s).s)
    ensures s.phase == V2GreetingExchange ==> V2Inv(ArmV2Greeting(s).s)
  {
    match s.phase
    case WaitPeerRevision =>
      FillOnlyMoves(s, PEEK_LENGTH);
      var f := Fill(s, PEEK_LENGTH);
      if |f.greeting| >= PEEK_LENGTH {
        OnRevisionV2(f, PeekRevision(f.greeting[..PEEK_LENGTH]));
      }
    case WaitV3Greeting =>
      FillOnlyMoves(s, GREETING_LENGTH);
      var f := Fill(s, GREETING_LENGTH);
      if |f.greeting| >= GREETING_LENGTH {
        OnGreetingV2(f.(greeting := f.greeting[GREETING_LENGTH..]), DecodeV3(f.greeting));
      }
    case V2GreetingExchange =>
      FillOnlyMoves(s, V2_GREETING_LENGTH);
      var f := Fill(s, V2_GREETING_LENGTH);
      if |f.greeting| >= V2_GREETING_LENGTH {
        OnV2PeerV2(f.(greeting := f.greeting[V2_GREETING_LENGTH..]), V2Compatible(f.cfg.socketType, f.greeting[11]));
      }
    case _ =>
  }

  lemma ArmStaysOut(s: H)
    requires NotV2(s)
    ensures NotV2(Arm(s).s)
  {
    if s.phase == WaitV3Greeting {
      GreetingV2(s);
    } else {
      ArmOk(s);
      EvolvesNotV2(s, Arm(s).s);
    }
  }

  lemma IdentityV2(s: H)
    requires V2Inv(s) && s.phase == V2WaitIdentity
    ensures V2Inv(ArmV2Identity(s).s)
  {
    TakeV2(s);
    var o := TryRead(s.framer, s.cfg.maxMsgSize, s.acc);
    OnIdentityV2(Take(s, o), o.res);
  }

  lemma ArmV2(s: H)
    requires V2Inv(s)
    ensures V2Inv(Arm(s).s)
    ensures NotV2(s) ==> NotV2(Arm(s).s)
  {
    if NotV2(s) {
      ArmStaysOut(s);
      NotV2Inv(Arm(s).s);
    } else if s.phase == V2WaitIdentity {
      IdentityV2(s);
    } else if s.phase == DataPhase {
      DataLoopV2(s, false);
    } else {
      GreetingV2(s);
    }
  }

  lemma {:induction false} ProcessBufferedV2(s: H, t: Clock)
    requires V2Inv(s)
    ensures V2Inv(ProcessBuffered(s, t).s)
    ensures NotV2(s) ==> NotV2(ProcessBuffered(s, t).s)
    decreases RankLeft(s), TokensLeft(s), |s.acc|, DecryptedLeft(s.framer), BodyPending(s.framer)
  {
    if Overdue(s, t) {
      ToErrorV2(s, Timeout);
    } else {
      ArmShrinks(s);
      ArmV2(s);
      var f := Arm(s);
      if f.Next? && Changed(s, f.s, f.progress) {
        ProcessBufferedV2(f.s, Tick(t));
      }
    }
  }

  lemma ProcessV2(s: H, t: Clock)
    requires V2Inv(s)
    ensures V2Inv(Process(s, t))
    ensures NotV2(s) ==> NotV2(Process(s, t))
  {
    ProcessBufferedV2(s, t);
    var d := ProcessBuffered(s, t);
    if d.error.Some? {
      ToErrorV2(d.s, d.error.value);
    }
  }

  // --- Events ---

  lemma ReadDataV2(s: H, chunk: Octets, t: Clock)
    requires V2Inv(s)
    ensures V2Inv(ReadData(s, chunk, t))
    ensures NotV2(s) ==> NotV2(ReadData(s, chunk, t))
  {
    if chunk == [] && !Final(s.phase) {
      ToErrorV2(s, ConnectionClosed);
    } else {
      ProcessV2(s.(acc := s.acc + chunk), t);
    }
  }

  lemma EmitAppV2(s: H, parts: seq<Msg>)
    requires V2Inv(s) && s.phase == DataPhase && s.framer.Plain?
    ensures V2Inv(EmitApp(s, EncodeAll(parts), parts))
  {
    var t := EmitApp(s, EncodeAll(parts), parts);
    if s.version == Some(V2) {
      forall i | 0 <= i < |t.ops| ensures V2Op(t.ops[i], t.framed) {
        if i < |s.ops| {
          assert V2Op(s.ops[i], s.framed);
        }
      }
    }
  }

  lemma DrainOneV2(s: H)
    requires V2Inv(s) && s.phase == DataPhase
    ensures V2Inv(DrainOne(s))
    ensures NotV2(s) ==> NotV2(DrainOne(s))
  {
    if s.queue != [] {
      if s.framer.Plain? {
        EmitAppV2(s.(queue := s.queue[1..]), s.queue[0]);
      }
      ToErrorV2(s, Internal);
    }
  }

  lemma PingV2(s: H)
    requires V2Inv(s) && s.phase == DataPhase && s.version != Some(V2)
    ensures SendCommand(s, PingMessage()).Some? ==>
              var t := SendCommand(s, PingMessage()).value.(pingSent := true); V2Inv(t) && (NotV2(s) ==> NotV2(t))
  {
    SendCommandOk(s, PingMessage());
  }

  lemma PrepareV2(s: H, p: Poll)
    requires V2Inv(s)
    ensures V2Inv(Prepare(s, p))
    ensures NotV2(s) ==> NotV2(Prepare(s, p))
  {
    ToErrorV2(s, Timeout);
    ToErrorV2(s, Internal);
    if s.phase == DataPhase {
      DrainOneV2(s);
      if s.version != Some(V2) {
        PingV2(s);
      }
    }
  }

  lemma ResumeV2(s: H, t: Clock)
    requires V2Inv(s)
    ensures V2Inv(Resume(s, t))
    ensures NotV2(s) ==> NotV2(Resume(s, t))
  {
    ProcessV2(s, t);
  }

  lemma AnnouncedV2(s: H, t: Clock)
    requires NotV2(s) && s.phase == DataPhase
    ensures NotV2(Announced(Announce(s), t))
  {
    var a := Announce(s);
    NotV2Inv(a.s);
    if a.ok {
      ResumeV2(a.s, t);
    }
  }

  lemma AckedV2(s: H)
    requires V2Inv(s)
    ensures V2Inv(s.(phase := AckPhase(s.phase)))
    ensures NotV2(s) ==> NotV2(s.(phase := AckPhase(s.phase)))
  {
  }

  lemma CompletedV2(s: H, c: Completion, t: Clock)
    requires V2Inv(s)
    ensures V2Inv(SendCompleted(s, c, t))
    ensures NotV2(s) ==> NotV2(SendCompleted(s, c, t))
  {
    if c == Fatal {
      ToErrorV2(s, IoError);
    } else if s.phase == DataPhase {
      DrainOneV2(if s.pingSent then s.(waitingPong := true, pingSent := false) else s);
    } else if s.phase == ReadyServerSend {
      AnnouncedV2(s.(phase := DataPhase), t);
      NotV2Inv(SendCompleted(s, c, t));
    } else {
      AckedV2(s);
      ResumeV2(s.(phase := AckPhase(s.phase)), t);
    }
  }

  lemma SubmitV2(s: H, parts: seq<Msg>)
    requires V2Inv(s)
    ensures V2Inv(Submit(s, parts))
    ensures NotV2(s) ==> NotV2(Submit(s, parts))
  {
    if s.phase == DataPhase && s.framer.Plain? {
      EmitAppV2(s, parts);
    }
  }

  lemma StepV2(s: H, e: Event)
    requires V2Inv(s)
    ensures V2Inv(Step(s, e))
    ensures NotV2(s) ==> NotV2(Step(s, e))
  {
    match e
    case Read(chunk, t) => ReadDataV2(s, chunk, t);
    case Completed(c, t) => CompletedV2(s, c, t);
    case Polled(p) => PrepareV2(s, p);
    case Submitted(parts) => SubmitV2(s, parts);
    case _ =>
  }

  lemma {:induction false} V2Invariant(cfg: Config, isServer: bool, room: nat, es: seq<Event>)
    ensures V2Inv(Run(Connected(cfg, isServer, room), es))
  {
    if es != [] {
      V2Invariant(cfg, isServer, room, es[..|es| - 1]);
      StepV2(Run(Connected(cfg, isServer, room), es[..|es| - 1]), es[|es| - 1]);
    }
  }

  // --- The session as a whole ---

  lemma {:induction false} NotV2Stays(s: H, es: seq<Event>, n: nat)
    requires n <= |es| && NotV2(Run(s, es[..n]))
    ensures NotV2(Run(s, es))
  {
    if n == |es| {
      assert es[..n] == es;
    } else {
      var most := es[..|es| - 1];
      assert most[..n] == es[..n];
      NotV2Stays(s, most, n);
      NotV2Inv(Run(s, most));
      StepV2(Run(s, most), es[|es| - 1]);
    }
  }

  /** If a run negotiates ZMTP/2.0, then no state of it was in a security or READY phase, and
      nothing it sent was a command frame, a heartbeat or encrypted: only greeting octets, the
      empty identity, and messages of the application as they were submitted. */
  lemma V2Session(cfg: Config, isServer: bool, room: nat, es: seq<Event>, n: nat)
    requires n <= |es|
    requires Run(Connected(cfg, isServer, room), es).version == Some(V2)
    ensures var s := Run(Connected(cfg, isServer, room), es[..n]); Early(s.phase) || V2Phase(s.phase)
    ensures var s := Run(Connected(cfg, isServer, room), es);
            && !s.pingSent
            && (forall i :: 0 <= i < |s.ops| ==> V2Op(s.ops[i], Sent(es)))
  {
    var start := Connected(cfg, isServer, room);
    V2Invariant(cfg, isServer, room, es[..n]);
    if NotV2(Run(start, es[..n])) {
      NotV2Stays(start, es, n);
    }
    V2Invariant(cfg, isServer, room, es);
    MessagesInOrder(cfg, isServer, room, es);
    var s := Run(start, es);
    forall i | 0 <= i < |s.ops| ensures V2Op(s.ops[i], Sent(es)) {
      assert V2Op(s.ops[i], s.framed);
      assert forall p :: p in s.framed ==> p in Sent(es);
    }
  }

  /** Reading stops at a command frame, if not before. */
  lemma {:induction false} DataLoopRefuses(s: H, progress: bool, i: nat)
    requires s.phase == DataPhase && s.version == Some(V2)
    requires var r := ReadAll(s.framer, s.cfg.maxMsgSize, s.acc); i < |r.msgs| && r.msgs[i].command
    ensures var f := DataLoop(s, progress); f.Fail? && f.s.phase == ErrorPhase
    decreases |s.acc|, DecryptedLeft(s.framer), BodyPending(s.framer)
  {
    TryReadConsumes(s.framer, s.cfg.maxMsgSize, s.acc);
    var o := TryRead(s.framer, s.cfg.maxMsgSize, s.acc);
    var t := Take(s, o);
    if o.res.Frame? && !o.res.msg.command {
      HandleFrameKeeps(t, o.res.msg);
      HandleFrameOk(t, o.res.msg);
      var f := HandleFrame(t, o.res.msg);
      if f.Next? {
        DataLoopRefuses(f.s, true, i - 1);
      }
    }
  }

  /** A ZMTP/2.0 session ends in error as soon as the octets received hold a command frame,
      wherever among the complete frames it stands. */
  lemma V2RefusesCommands(s: H, chunk: Octets, t: Clock, i: nat)
    requires s.phase == DataPhase && s.version == Some(V2)
    requires var r := ReadAll(s.framer, s.cfg.maxMsgSize, s.acc + chunk); i < |r.msgs| && r.msgs[i].command
    ensures ReadData(s, chunk, t).phase == ErrorPhase
  {
    if chunk != [] {
      DataLoopRefuses(s.(acc := s.acc + chunk), false, i);
    }
  }

  /** So does a command frame, or any other that is no identity, in the identity's place. */
  lemma V2RefusesBadIdentity(s: H, chunk: Octets, t: Clock)
    requires s.phase == V2WaitIdentity && chunk != []
    requires var o := TryRead(s.framer, s.cfg.maxMsgSize, s.acc + chunk);
             o.res.Frame? && (o.res.msg.command || o.res.msg.more || |o.res.msg.data| > 255)
    ensures ReadData(s, chunk, t).phase == ErrorPhase
  {
  }
}
