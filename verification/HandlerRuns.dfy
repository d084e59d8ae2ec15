/** What every run of a handler keeps: phases only move forward, the upstream trace has one shape,
    and application messages go out in the order of submission, none lost or repeated. */
module HandlerRuns {
  import opened Bytes
  import opened Frames
  import opened Framers
  import opened Commands
  import opened Greeting
  import opened Mechanisms
  import opened Handler
  import opened HandlerSteps

  // --- What one round of the phase loop may change ---

  /** The phases one round can go to from `p`. */
  predicate Follows(p: Phase, q: Phase) {
    || q == p
    || (q == ErrorPhase && p != ClosedPhase)
    || (p == WaitPeerRevision && (q == SendV3Tail || q == SendV2Tail))
    || (p == WaitV3Greeting && q == SecurityExchange)
    || (p == V2GreetingExchange && q == V2SendIdentity)
    || (p == SecurityExchange && (q == ReadyClientSend || q == ReadyServerWaitClient))
    || (p == ReadyServerWaitClient && q == ReadyServerSend)
    || (q == DataPhase && (p == V2WaitIdentity || p == ReadyClientWaitServer))
  }

  /** The phase moves along `Follows`; the configuration, the application's queue and what was
      framed for it stay as they are. */
  ghost predicate Evolves(s: H, t: H) {
    && t.cfg == s.cfg && t.isServer == s.isServer
    && t.queue == s.queue && t.pingSent == s.pingSent && t.framed == s.framed
    && Follows(s.phase, t.phase)
    && (s.phase != WaitPeerRevision && s.phase != WaitV3Greeting ==> t.version == s.version)
  }

  /** A completed handshake, then only data. */
  predicate Open(es: seq<UpEvent>) {
    es != [] && es[0].HandshakeComplete? && forall i :: 1 <= i < |es| ==> es[i].Data?
  }

  /** A prefix of: one fault, or a completed handshake, data, and at most one final fault. */
  predicate WellShaped(es: seq<UpEvent>) {
    || es == []
    || (|es| == 1 && es[0].Fault?)
    || Open(es)
    || (es != [] && Open(es[..|es| - 1]) && es[|es| - 1].Fault?)
  }

  predicate TraceOk(s: H) {
    match s.phase
    case DataPhase => Open(s.events)
    case ClosingPhase => s.events == [] || Open(s.events)
    case ErrorPhase => WellShaped(s.events)
    case ClosedPhase => WellShaped(s.events)
    case _ => s.events == []
  }

  /** What an arm leaves behind; one that failed may have entered the data phase unannounced. */
  ghost predicate FlowOk(s: H, f: Flow) {
    && Evolves(s, f.s)
    && (TraceOk(s) ==> TraceOk(f.s) || (f.Fail? && f.s.phase == DataPhase && f.s.events == []))
  }

  lemma ToErrorOk(s: H, e: ErrorKind)
    ensures Evolves(s, ToError(s, e))
    ensures TraceOk(s) || (s.phase == DataPhase && s.events == []) ==> TraceOk(ToError(s, e))
  {
    var t := ToError(s, e);
    if !Final(s.phase) && t.events != s.events {
      assert t.events[..|t.events| - 1] == s.events;
    }
  }

  lemma SendCommandOk(s: H, m: Msg)
    ensures SendCommand(s, m).Some? ==>
              Evolves(s, SendCommand(s, m).value) && SendCommand(s, m).value.events == s.events && SendCommand(s, m).value.phase == s.phase
  {
  }

  lemma DowngradeOk(s: H, code: Option<Byte>)
    requires s.phase == WaitPeerRevision
    ensures FlowOk(s, Downgrade(s, code))
  {
    ToErrorOk(s, ProtocolViolation);
  }

  lemma OnRevisionOk(s: H, revision: Option<Byte>)
    requires s.phase == WaitPeerRevision
    ensures FlowOk(s, OnRevision(s, revision))
  {
    ToErrorOk(s, ProtocolViolation);
    DowngradeOk(s, SocketTypeCode(s.cfg.socketType));
  }

  lemma OnGreetingOk(s: H, g: Option<V3Greeting>)
    requires s.phase == WaitV3Greeting
    ensures FlowOk(s, OnGreeting(s, g))
  {
    ToErrorOk(s, ProtocolViolation);
    ToErrorOk(s, SecurityError);
  }

  lemma OnV2PeerOk(s: H, compatible: bool)
    requires s.phase == V2GreetingExchange
    ensures FlowOk(s, OnV2Peer(s, compatible))
  {
    ToErrorOk(s, ProtocolViolation);
  }

  /** Filling the greeting buffer moves octets and nothing else. */
  lemma FillOnlyMoves(s: H, target: nat)
    ensures var f := Fill(s, target); f == s.(greeting := f.greeting, acc := f.acc)
  {
  }

  lemma GreetingOk(s: H)
    ensures s.phase == WaitPeerRevision ==> FlowOk(s, ArmPeerRevision(s))
    ensures s.phase == WaitV3Greeting ==> FlowOk(s, ArmV3Greeting(s))
    ensures s.phase == V2GreetingExchange ==> FlowOk(s, ArmV2Greeting(s))
  {
    match s.phase
    case WaitPeerRevision =>
      FillOnlyMoves(s, PEEK_LENGTH);
      var f := Fill(s, PEEK_LENGTH);
      if |f.greeting| >= PEEK_LENGTH {
        OnRevisionOk(f, PeekRevision(f.greeting[..PEEK_LENGTH]));
      }
    case WaitV3Greeting =>
      FillOnlyMoves(s, GREETING_LENGTH);
      var f := Fill(s, GREETING_LENGTH);
      if |f.greeting| >= GREETING_LENGTH {
        OnGreetingOk(f.(greeting := f.greeting[GREETING_LENGTH..]), DecodeV3(f.greeting));
      }
    case V2GreetingExchange =>
      FillOnlyMoves(s, V2_GREETING_LENGTH);
      var f := Fill(s, V2_GREETING_LENGTH);
      if |f.greeting| >= V2_GREETING_LENGTH {
        OnV2PeerOk(f.(greeting := f.greeting[V2_GREETING_LENGTH..]), V2Compatible(f.cfg.socketType, f.greeting[11]));
      }
    case _ =>
  }

  lemma EnterDataOk(s: H)
    requires s.phase == V2WaitIdentity || s.phase == ReadyClientWaitServer
    ensures FlowOk(s, EnterData(s))
  {
  }

  lemma OnIdentityOk(s: H, res: ReadRes)
    requires s.phase == V2WaitIdentity
    ensures FlowOk(s, OnIdentity(s, res))
  {
    ToErrorOk(s, ProtocolViolation);
    if res.Frame? {
      EnterDataOk(if res.msg.data == [] then s else s.(idReady := Some(res.msg.data)));
    }
  }

  lemma SendReadyOk(s: H, next: Phase)
    requires Follows(s.phase, next) && Rank(next) in {6, 7}
    requires Rank(s.phase) < 8
    ensures FlowOk(s, SendReady(s, next))
  {
    SendCommandOk(s, OwnReady(s.cfg));
  }

  lemma OnReadyOk(s: H, c: Option<Command>)
    requires s.phase == ReadyClientWaitServer || s.phase == ReadyServerWaitClient
    ensures FlowOk(s, OnReady(s, c))
  {
    ToErrorOk(s, ProtocolViolation);
    if c.Some? && c.value.Ready? {
      var t := WithIdentity(s, c.value.props);
      if s.phase == ReadyClientWaitServer {
        EnterDataOk(t);
      } else {
        SendReadyOk(t, ReadyServerSend);
      }
    }
  }

  lemma OnReadyFrameOk(s: H, res: ReadRes)
    requires s.phase == ReadyClientWaitServer || s.phase == ReadyServerWaitClient
    ensures FlowOk(s, OnReadyFrame(s, res))
  {
    ToErrorOk(s, ProtocolViolation);
    if res.Frame? {
      OnReadyOk(s, CommandOf(res.msg));
    }
  }

  lemma LeaveOk(s: H, done: Option<Finished>)
    requires s.phase == SecurityExchange
    ensures FlowOk(s, Leave(s, done))
  {
    ToErrorOk(s, InvalidState);
    if done.Some? {
      var t := s.(framer := done.value.framer, idSecurity := Or(s.idSecurity, done.value.peer));
      SendReadyOk(t.(phase := ReadyClientSend), ReadyClientSend);
    }
  }

  lemma AnswerOk(s: H, p: MechProduced)
    ensures var t := Answer(s, p).s; Evolves(s, t) && t.phase == s.phase && t.events == s.events
  {
  }

  lemma AfterTokensOk(s: H, m: Mechanism, acted: bool)
    requires s.phase == SecurityExchange
    ensures FlowOk(s, AfterTokens(s, m, acted))
  {
    LeaveOk(s.(mech := None), IntoFramer(m));
    ToErrorOk(s, SecurityError);
  }

  lemma GotTokenOk(s: H, p: MechProcessed)
    requires s.phase == SecurityExchange
    ensures FlowOk(s, GotToken(s, p))
  {
    var t := s.(mech := Some(p.mech));
    AnswerOk(t, ProduceToken(p.mech));
    var b := AskToken(t, p.mech);
    AfterTokensOk(b.s, b.mech, true);
  }

  lemma OnTokenOk(s: H, m: Mechanism, acted: bool, res: ReadRes)
    requires s.phase == SecurityExchange
    ensures FlowOk(s, OnToken(s, m, acted, res))
  {
    ToErrorOk(s, SecurityError);
    AfterTokensOk(s, m, acted);
    if res.Frame? {
      GotTokenOk(s, ProcessToken(m, res.msg.data));
    }
  }

  lemma ReadTokenOk(s: H, m: Mechanism, acted: bool)
    requires s.phase == SecurityExchange
    ensures FlowOk(s, ReadToken(s, m, acted))
  {
    AfterTokensOk(s, m, acted);
    var o := TryRead(s.framer, s.cfg.maxMsgSize, s.acc);
    OnTokenOk(Take(s, o), m, acted, o.res);
  }

  lemma SecurityOk(s: H)
    requires s.phase == SecurityExchange
    ensures FlowOk(s, ArmSecurity(s))
  {
    if s.mech.None? {
      ToErrorOk(s, InvalidState);
    } else {
      var m := s.mech.value;
      LeaveOk(s.(mech := None), IntoFramer(m));
      AnswerOk(s, ProduceToken(m));
      var a := AskToken(s, m);
      ReadTokenOk(a.s, a.mech, a.sent);
    }
  }

  lemma OnCommandOk(s: H, c: Option<Command>)
    requires s.phase == DataPhase
    ensures FlowOk(s, OnCommand(s, c))
  {
    ToErrorOk(s, ProtocolViolation);
    if c.Some? && c.value.Ping? {
      SendCommandOk(s, PongMsg(c.value.context));
    }
  }

  lemma HandleFrameOk(s: H, m: Msg)
    requires s.phase == DataPhase
    ensures FlowOk(s, HandleFrame(s, m))
  {
    ToErrorOk(s, ProtocolViolation);
    ToErrorOk(s, Internal);
    OnCommandOk(s, CommandOf(m));
  }

  lemma {:induction false} DataLoopOk(s: H, progress: bool)
    requires s.phase == DataPhase
    ensures FlowOk(s, DataLoop(s, progress))
    decreases |s.acc|, DecryptedLeft(s.framer), BodyPending(s.framer)
  {
    TryReadConsumes(s.framer, s.cfg.maxMsgSize, s.acc);
    var o := TryRead(s.framer, s.cfg.maxMsgSize, s.acc);
    var t := Take(s, o);
    ToErrorOk(t, ProtocolViolation);
    if o.res.Frame? {
      HandleFrameOk(t, o.res.msg);
      HandleFrameKeeps(t, o.res.msg);
      var f := HandleFrame(t, o.res.msg);
      if f.Next? {
        DataLoopOk(f.s, true);
      }
    }
  }

  lemma ArmOk(s: H)
    ensures FlowOk(s, Arm(s))
  {
    match s.phase
    case Initial => ToErrorOk(s, InvalidState);
    case WaitPeerRevision => GreetingOk(s);
    case V2GreetingExchange => GreetingOk(s);
    case WaitV3Greeting => GreetingOk(s);
    case V2WaitIdentity =>
      var o := TryRead(s.framer, s.cfg.maxMsgSize, s.acc);
      OnIdentityOk(Take(s, o), o.res);
    case ReadyClientWaitServer =>
      var o := TryRead(s.framer, s.cfg.maxMsgSize, s.acc);
      OnReadyFrameOk(Take(s, o), o.res);
    case ReadyServerWaitClient =>
      var o := TryRead(s.framer, s.cfg.maxMsgSize, s.acc);
      OnReadyFrameOk(Take(s, o), o.res);
    case SecurityExchange => SecurityOk(s);
    case DataPhase => DataLoopOk(s, false);
    case _ =>
  }

  // --- The phase loop and every event ---

  lemma FollowsRank(p: Phase, q: Phase)
    requires Follows(p, q)
    ensures Rank(q) >= Rank(p)
  {
  }

  /** What the application is entitled to stays as it is, and the phase does not go back. */
  ghost predicate Keeps(s: H, t: H) {
    t.cfg == s.cfg && t.queue == s.queue && t.framed == s.framed && Rank(t.phase) >= Rank(s.phase)
  }

  lemma {:induction false} ProcessBufferedOk(s: H, t: Clock)
    ensures var d := ProcessBuffered(s, t);
            && Keeps(s, d.s)
            && (TraceOk(s) ==> TraceOk(d.s) || (d.error.Some? && d.s.phase == DataPhase && d.s.events == []))
    decreases RankLeft(s), TokensLeft(s), |s.acc|, DecryptedLeft(s.framer), BodyPending(s.framer)
  {
    if Overdue(s, t) {
      ToErrorOk(s, Timeout);
      FollowsRank(s.phase, ToError(s, Timeout).phase);
    } else {
      ArmShrinks(s);
      ArmOk(s);
      var f := Arm(s);
      FollowsRank(s.phase, f.s.phase);
      if f.Next? && Changed(s, f.s, f.progress) {
        ProcessBufferedOk(f.s, Tick(t));
      }
    }
  }

  lemma ProcessOk(s: H, t: Clock)
    ensures Keeps(s, Process(s, t)) && (TraceOk(s) ==> TraceOk(Process(s, t)))
  {
    ProcessBufferedOk(s, t);
    var d := ProcessBuffered(s, t);
    if d.error.Some? {
      ToErrorOk(d.s, d.error.value);
      FollowsRank(d.s.phase, ToError(d.s, d.error.value).phase);
    }
  }

  lemma EndOfStreamOk(s: H)
    requires !Final(s.phase)
    ensures var u := ToError(s, ConnectionClosed);
            var t := if s.phase == DataPhase then TrySend(u, Fault(ConnectionClosed)).s else u;
            Keeps(s, t) && (TraceOk(s) ==> TraceOk(t))
  {
    ToErrorOk(s, ConnectionClosed);
    FollowsRank(s.phase, ToError(s, ConnectionClosed).phase);
    var u := ToError(s, ConnectionClosed);
    assert (u.events + [Fault(ConnectionClosed)])[..|u.events|] == u.events;
  }

  lemma ReadDataOk(s: H, chunk: Octets, t: Clock)
    ensures Keeps(s, ReadData(s, chunk, t)) && (TraceOk(s) ==> TraceOk(ReadData(s, chunk, t)))
  {
    if chunk == [] && !Final(s.phase) {
      EndOfStreamOk(s);
    } else {
      ProcessOk(s.(acc := s.acc + chunk), t);
    }
  }

  lemma ResumeOk(s: H, t: Clock)
    ensures Keeps(s, Resume(s, t)) && (TraceOk(s) ==> TraceOk(Resume(s, t)))
  {
    ProcessOk(s, t);
  }

  lemma AnnouncedOk(s: H, t: Clock)
    requires s.phase == DataPhase
    ensures Keeps(s, Announced(Announce(s), t)) && (s.events == [] ==> TraceOk(Announced(Announce(s), t)))
  {
    var a := Announce(s);
    if a.ok {
      ResumeOk(a.s, t);
    } else {
      ToErrorOk(a.s, Internal);
      FollowsRank(a.s.phase, ToError(a.s, Internal).phase);
    }
  }

  lemma SendCompletedOk(s: H, c: Completion, t: Clock)
    requires s.phase != DataPhase
    ensures Keeps(s, SendCompleted(s, c, t)) && (TraceOk(s) ==> TraceOk(SendCompleted(s, c, t)))
  {
    if c == Fatal {
      ToErrorOk(s, IoError);
      FollowsRank(s.phase, ToError(s, IoError).phase);
    } else if s.phase == ReadyServerSend {
      AnnouncedOk(s.(phase := DataPhase), t);
    } else {
      ResumeOk(s.(phase := AckPhase(s.phase)), t);
    }
  }

  // --- Phases and trace over every run ---

  lemma MoveHead<T>(done: seq<T>, queue: seq<T>)
    requires queue != []
    ensures (done + [queue[0]]) + queue[1..] == done + queue
  {
  }

  /** Sending on the application's behalf: the phase does not go back, the trace keeps its shape,
      and messages move only from the queue to the framed ones. */
  ghost predicate Serves(s: H, t: H) {
    && Rank(t.phase) >= Rank(s.phase)
    && (TraceOk(s) ==> TraceOk(t))
    && t.framed + t.queue == s.framed + s.queue && s.framed <= t.framed
    && (s.phase != DataPhase ==> t.framed == s.framed)
  }

  lemma ErrorServes(s: H, e: ErrorKind)
    ensures Serves(s, ToError(s, e))
  {
    ToErrorOk(s, e);
    FollowsRank(s.phase, ToError(s, e).phase);
  }

  lemma DrainHeadServes(s: H, w: Option<Written>)
    requires s.queue != [] && s.phase == DataPhase
    ensures Serves(s, DrainHead(s, w))
  {
    if w.None? {
      ErrorServes(s, Internal);
    } else {
      MoveHead(s.framed, s.queue);
    }
  }

  lemma DrainOneServes(s: H)
    requires s.phase == DataPhase
    ensures Serves(s, DrainOne(s))
  {
    if s.queue != [] {
      DrainHeadServes(s, Write(s.framer, s.queue[0]));
    }
  }

  lemma PingServes(s: H)
    requires s.phase == DataPhase
    ensures SendCommand(s, PingMessage()).Some? ==> Serves(s, SendCommand(s, PingMessage()).value.(pingSent := true))
  {
    SendCommandOk(s, PingMessage());
  }

  lemma PrepareServes(s: H, p: Poll)
    ensures Serves(s, Prepare(s, p))
  {
    ErrorServes(s, Timeout);
    ErrorServes(s, Internal);
    if s.phase == DataPhase {
      DrainOneServes(s);
      PingServes(s);
    }
  }

  lemma CompletedServes(s: H, c: Completion, t: Clock)
    ensures Serves(s, SendCompleted(s, c, t))
  {
    if s.phase == DataPhase {
      ErrorServes(s, IoError);
      DrainOneServes(if s.pingSent then s.(waitingPong := true, pingSent := false) else s);
    } else {
      SendCompletedOk(s, c, t);
    }
  }

  lemma SubmitOk(s: H, parts: seq<Msg>)
    ensures var t := Submit(s, parts);
            && t.phase == s.phase && t.events == s.events && s.framed <= t.framed
            && t.framed + t.queue == s.framed + s.queue + [parts]
            && (s.phase != DataPhase ==> t.framed == s.framed)
  {
    assert s.framed + (s.queue + [parts]) == s.framed + s.queue + [parts];
  }

  /** One event: the phase does not go back and the trace keeps its shape. */
  lemma StepForward(s: H, e: Event)
    ensures Rank(Step(s, e).phase) >= Rank(s.phase)
    ensures TraceOk(s) ==> TraceOk(Step(s, e))
  {
    match e
    case Read(chunk, t) => ReadDataOk(s, chunk, t);
    case Completed(c, t) => CompletedServes(s, c, t);
    case Polled(p) => PrepareServes(s, p);
    case Submitted(parts) => SubmitOk(s, parts);
    case _ =>
  }

  /** Over every run the upstream trace keeps its shape: at most one completed handshake, no data
      before it, at most one fault and nothing after it. */
  lemma {:induction false} TraceShape(cfg: Config, isServer: bool, room: nat, es: seq<Event>)
    ensures TraceOk(Run(Connected(cfg, isServer, room), es))
    ensures WellShaped(Run(Connected(cfg, isServer, room), es).events)
  {
    if es != [] {
      var before := Run(Connected(cfg, isServer, room), es[..|es| - 1]);
      TraceShape(cfg, isServer, room, es[..|es| - 1]);
      StepForward(before, es[|es| - 1]);
    }
  }

  /** A run's phases never go back: any longer run is at least as far as any of its prefixes. */
  lemma {:induction false} PhasesNeverGoBack(s: H, es: seq<Event>, n: nat)
    requires n <= |es|
    ensures Rank(Run(s, es[..n]).phase) <= Rank(Run(s, es).phase)
  {
    if n == |es| {
      assert es[..n] == es;
    } else {
      var most := es[..|es| - 1];
      PhasesNeverGoBack(s, most, n);
      assert most[..n] == es[..n];
      StepForward(Run(s, most), es[|es| - 1]);
    }
  }

  // --- Application messages over every run ---

  /** The messages the application submitted in a run. */
  function Sent(es: seq<Event>): seq<seq<Msg>> {
    if es == [] then []
    else
      var last := es[|es| - 1];
      Sent(es[..|es| - 1]) + (if last.Submitted? then [last.parts] else [])
  }

  /** Whether the application's close came while the connection was still working. */
  predicate Dropped(s: H, es: seq<Event>) {
    es != [] && (var before := Run(s, es[..|es| - 1]);
                 Dropped(s, es[..|es| - 1]) || (es[|es| - 1].CloseAsked? && Rank(before.phase) < 9))
  }

  /** One event: nothing framed is taken back, and nothing accepted is lost, repeated or moved. */
  lemma StepQueues(s: H, e: Event)
    ensures s.framed <= Step(s, e).framed
    ensures s.phase != DataPhase ==> Step(s, e).framed == s.framed
    ensures !(e.CloseAsked? && Rank(s.phase) < 9) ==>
              Step(s, e).framed + Step(s, e).queue == s.framed + s.queue + (if e.Submitted? then [e.parts] else [])
  {
    match e
    case Read(chunk, t) => ReadDataOk(s, chunk, t);
    case Completed(c, t) => CompletedServes(s, c, t);
    case Polled(p) => PrepareServes(s, p);
    case Submitted(parts) => SubmitOk(s, parts);
    case _ =>
  }

  /** What was framed is a prefix of what was submitted; what is queued is the rest of it, until the
      queue is dropped, which only happens on the way out. */
  predicate InOrder(s: H, sent: seq<seq<Msg>>, dropped: bool) {
    && s.framed <= sent
    && (!dropped ==> s.framed + s.queue == sent)
    && (dropped ==> Rank(s.phase) >= 9)
  }

  lemma InOrderNext(s: H, t: H, sent: seq<seq<Msg>>, added: seq<seq<Msg>>, dropped: bool, drops: bool)
    requires InOrder(s, sent, dropped) && Rank(s.phase) <= Rank(t.phase)
    requires s.framed <= t.framed && (s.phase != DataPhase ==> t.framed == s.framed)
    requires !drops ==> t.framed + t.queue == s.framed + s.queue + added
    requires drops ==> t.framed == s.framed && Rank(t.phase) >= 9
    ensures InOrder(t, sent + added, dropped || drops)
  {
  }

  /** Over every run the messages framed are a prefix of those submitted, and until the
      application closes a working connection they are the submitted ones less the queue. */
  lemma {:induction false} MessagesInOrder(cfg: Config, isServer: bool, room: nat, es: seq<Event>)
    ensures var start := Connected(cfg, isServer, room); InOrder(Run(start, es), Sent(es), Dropped(start, es))
  {
    var start := Connected(cfg, isServer, room);
    if es != [] {
      var most, e := es[..|es| - 1], es[|es| - 1];
      var before := Run(start, most);
      MessagesInOrder(cfg, isServer, room, most);
      StepQueues(before, e);
      StepForward(before, e);
      InOrderNext(before, Step(before, e), Sent(most), if e.Submitted? then [e.parts] else [],
                  Dropped(start, most), e.CloseAsked? && Rank(before.phase) < 9);
    }
  }
}
