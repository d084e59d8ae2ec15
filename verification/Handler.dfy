/** The io_uring ZMTP connection handler (io_uring_backend/zmtp_handler.rs) as a step function on
    its whole state. Time enters only through the parameters that say when a deadline passes. */
module Handler {
  import opened Bytes
  import opened Frames
  import opened Framers
  import opened Commands
  import opened Greeting
  import opened Mechanisms

  datatype Phase =
    | Initial
    | SendSignature
    | WaitPeerRevision
    | SendV3Tail
    | WaitV3Greeting
    | SendV2Tail
    | V2GreetingExchange
    | V2SendIdentity
    | V2WaitIdentity
    | SecurityExchange
    | ReadyClientSend
    | ReadyClientWaitServer
    | ReadyServerWaitClient
    | ReadyServerSend
    | DataPhase
    | ClosingPhase
    | ErrorPhase
    | ClosedPhase

  datatype Config = Config(
    socketType: Octets,
    routingId: Option<Octets>,
    identityFirst: bool,        // the property order a hash map happens to give
    security: SecurityConfig,
    maxMsgSize: int,
    allowV2: bool,
    zeroCopy: bool,
    heartbeat: bool)

  datatype ErrorKind =
    | Timeout
    | ProtocolViolation
    | SecurityError
    | InvalidState
    | Internal
    | ConnectionClosed
    | IoError

  /** What a send carries: fixed greeting octets, a ZMTP command, or an application message. */
  datatype Content = Control | CommandFrame(msg: Msg) | AppParts(parts: seq<Msg>)

  datatype Blueprint =
    | Send(data: Octets, content: Content, secure: bool, zeroCopy: bool)
    | RequestClose
    | StartRead

  datatype UpEvent =
    | HandshakeComplete(peer: Option<Octets>)
    | Data(msg: Msg)
    | Fault(error: ErrorKind)

  datatype Version = V2 | V3(minor: Byte)

  /** The handler's fields. `framed` is the application messages framed so far, `room` is what the upstream channel still takes, `events` what was put
      into it, and `ops` all blueprints handed to the worker, in order. */
  datatype H = H(
    cfg: Config,
    isServer: bool,
    phase: Phase,
    greeting: Octets,
    acc: Octets,
    mech: Option<Mechanism>,
    framer: Framer,
    waitingPong: bool,
    pingSent: bool,
    queue: seq<seq<Msg>>,
    framed: seq<seq<Msg>>,
    idSecurity: Option<Octets>,
    idReady: Option<Octets>,
    finalId: Option<Octets>,
    version: Option<Version>,
    room: nat,
    events: seq<UpEvent>,
    ops: seq<Blueprint>)

  /** The octets handed out to be sent, in order. */
  function Wire(ops: seq<Blueprint>): Octets {
    if ops == [] then []
    else Wire(ops[..|ops| - 1]) + (if ops[|ops| - 1].Send? then ops[|ops| - 1].data else [])
  }

  function New(cfg: Config, isServer: bool, room: nat): H {
    H(cfg, isServer, Initial, [], [], None, Plain(ReadHeader), false, false, [], [], None, None, None, None, room, [], [])
  }

  // --- Small steps shared by the arms ---

  datatype Tried = Tried(s: H, ok: bool)

  /** `try_send` on the upstream channel. */
  function TrySend(s: H, e: UpEvent): Tried {
    if s.room > 0 then Tried(s.(room := s.room - 1, events := s.events + [e]), true) else Tried(s, false)
  }

  predicate Final(p: Phase) { p == ErrorPhase || p == ClosedPhase }

  /** A close is asked for once. */
  function WithClose(ops: seq<Blueprint>): seq<Blueprint> {
    if RequestClose in ops then ops else ops + [RequestClose]
  }

  function ToError(s: H, e: ErrorKind): H {
    if Final(s.phase) then s
    else
      var t := s.(phase := ErrorPhase, ops := WithClose(s.ops));
      if s.phase == DataPhase then t else TrySend(t, Fault(e)).s
  }

  function Emit(s: H, data: Octets, content: Content): H {
    s.(ops := s.ops + [Send(data, content, s.framer.Secure?, false)])
  }

  const ZC_SEND_THRESHOLD := 1024

  /** An application message was framed as `data`: nothing is sent for no octets, and a long
      send is zero-copy if so configured. */
  function EmitApp(s: H, data: Octets, parts: seq<Msg>): H {
    var t := s.(framed := s.framed + [parts]);
    if data == [] then t
    else t.(ops := s.ops + [Send(data, AppParts(parts), s.framer.Secure?, s.cfg.zeroCopy && |data| > ZC_SEND_THRESHOLD)])
  }

  /** Frame and send one command; `None` when the framer refuses. */
  function SendCommand(s: H, m: Msg): Option<H> { EmitCommand(s, m, Write(s.framer, [m])) }

  function EmitCommand(s: H, m: Msg, w: Option<Written>): Option<H> {
    if w.None? then None else Some(Emit(s.(framer := w.value.framer), w.value.wire, CommandFrame(m)))
  }

  function SocketTypeName(): Octets { Ascii("Socket-Type") }

  function IdentityName(): Octets { Ascii("Identity") }

  /** The READY metadata; an identity is announced only if it has 1 to 255 octets. */
  function ReadyProperties(cfg: Config): seq<Property> {
    var kind := Property(SocketTypeName(), cfg.socketType);
    if cfg.routingId.Some? && 1 <= |cfg.routingId.value| <= 255 then
      var id := Property(IdentityName(), cfg.routingId.value);
      if cfg.identityFirst then [id, kind] else [kind, id]
    else [kind]
  }

  function OwnReady(cfg: Config): Msg { ReadyMsg(ReadyProperties(cfg)) }

  function Or(a: Option<Octets>, b: Option<Octets>): Option<Octets> {
    if a.Some? then a else b
  }

  /** `signal_upstream_handshake_complete`. */
  function Announce(s: H): Tried {
    var id := Or(s.idReady, s.idSecurity);
    TrySend(s.(finalId := id), HandshakeComplete(id))
  }

  /** How many octets to add to `have` so as to reach `target`, with `avail` at hand. */
  function Missing(have: nat, avail: nat, target: nat): (k: nat)
    ensures k <= avail
  {
    if have >= target then 0 else if target - have <= avail then target - have else avail
  }

  /** Moves octets from the accumulator until the greeting buffer holds `target` of them. */
  function Fill(s: H, target: nat): H {
    var k := Missing(|s.greeting|, |s.acc|, target);
    s.(greeting := s.greeting + s.acc[..k], acc := s.acc[k..])
  }

  function Take(s: H, o: ReadOut): H {
    s.(framer := o.framer, acc := o.net)
  }

  // --- One iteration of the phase loop ---

  /** How an arm ends: fall out of the match, break the loop, or return an error. */
  datatype Flow = Next(s: H, progress: bool) | Stop(s: H) | Fail(s: H, error: ErrorKind)

  function Abort(s: H, e: ErrorKind): Flow { Fail(ToError(s, e), e) }

  function ArmPeerRevision(s: H): Flow { ReadRevision(Fill(s, PEEK_LENGTH)) }

  function ReadRevision(s: H): Flow {
    if |s.greeting| < PEEK_LENGTH then Stop(s) else OnRevision(s, PeekRevision(s.greeting[..PEEK_LENGTH]))
  }

  function OnRevision(s: H, revision: Option<Byte>): Flow {
    if revision == Some(V2_REVISION) then
      if s.cfg.allowV2 then Downgrade(s, SocketTypeCode(s.cfg.socketType)) else Abort(s, ProtocolViolation)
    else if revision.Some? && revision.value >= MAJOR then
      Next(Emit(s, V3Tail(Proposed(s.cfg.security, s.isServer), s.isServer), Control).(phase := SendV3Tail), true)
    else Abort(s, ProtocolViolation)
  }

  /** The peer speaks ZMTP/2.0: answer with the code of our socket type, if it has one. */
  function Downgrade(s: H, code: Option<Byte>): Flow {
    if code.None? then Abort(s, ProtocolViolation)
    else Next(Emit(s, [code.value], Control).(version := Some(V2), phase := SendV2Tail), true)
  }

  function ArmV3Greeting(s: H): Flow { ReadGreeting(Fill(s, GREETING_LENGTH)) }

  function ReadGreeting(s: H): Flow {
    if |s.greeting| < GREETING_LENGTH then Stop(s)
    else OnGreeting(s.(greeting := s.greeting[GREETING_LENGTH..]), DecodeV3(s.greeting))
  }

  function OnGreeting(s: H, g: Option<V3Greeting>): Flow {
    if g.None? then Abort(s, ProtocolViolation)
    else if s.isServer == g.value.asServer then Abort(s, SecurityError)
    else UseMechanism(s.(version := Some(V3(g.value.minor))), Negotiate(s.cfg.security, s.isServer, g.value.mechanism))
  }

  function UseMechanism(s: H, m: Option<Mechanism>): Flow {
    if m.None? then Fail(s, SecurityError) else Next(s.(mech := m, phase := SecurityExchange), true)
  }

  function ArmV2Greeting(s: H): Flow { ReadV2Greeting(Fill(s, V2_GREETING_LENGTH)) }

  function ReadV2Greeting(s: H): Flow {
    if |s.greeting| < V2_GREETING_LENGTH then Stop(s)
    else OnV2Peer(s.(greeting := s.greeting[V2_GREETING_LENGTH..]), V2Compatible(s.cfg.socketType, s.greeting[11]))
  }

  function OnV2Peer(s: H, compatible: bool): Flow {
    if compatible then Next(Emit(s, [0, 0], Control).(phase := V2SendIdentity), true) else Abort(s, ProtocolViolation)
  }

  /** The handshake is over: enter the data phase and say so upstream. */
  function EnterData(s: H): Flow {
    var t := Announce(s.(phase := DataPhase));
    if t.ok then Next(t.s, true) else Fail(t.s, Internal)
  }

  function ArmV2Identity(s: H): Flow {
    if s.acc == [] then Stop(s)
    else
      var o := TryRead(s.framer, s.cfg.maxMsgSize, s.acc);
      OnIdentity(Take(s, o), o.res)
  }

  function OnIdentity(s: H, res: ReadRes): Flow {
    match res
    case Nothing => Stop(s)
    case Failed => Abort(s, ProtocolViolation)
    case Frame(m) =>
      if m.command || m.more || |m.data| > 255 then Abort(s, ProtocolViolation)
      else EnterData(if m.data == [] then s else s.(idReady := Some(m.data)))
  }

  /** Leaving the security exchange: the mechanism gives way to its framer. */
  function LeaveSecurity(s: H, m: Mechanism): Flow { Leave(s.(mech := None), IntoFramer(m)) }

  function Leave(s: H, done: Option<Finished>): Flow {
    if done.None? then Fail(ToError(s, InvalidState), Internal)
    else
      var t := s.(framer := done.value.framer, idSecurity := Or(s.idSecurity, done.value.peer));
      if s.isServer then Next(t.(phase := ReadyServerWaitClient), true)
      else SendReady(t.(phase := ReadyClientSend), ReadyClientSend)
  }

  /** Send our own READY and go to `next`. */
  function SendReady(s: H, next: Phase): Flow { ReadySent(s, SendCommand(s, OwnReady(s.cfg)), next) }

  function ReadySent(s: H, sent: Option<H>, next: Phase): Flow {
    if sent.None? then Fail(s, Internal) else Next(sent.value.(phase := next), true)
  }

  datatype Asked = Asked(s: H, mech: Mechanism, ok: bool, sent: bool)

  /** Ask the mechanism for a token and send it as a command. */
  function AskToken(s: H, m: Mechanism): Asked { Answer(s, ProduceToken(m)) }

  function Answer(s: H, p: MechProduced): Asked {
    var s1 := s.(mech := Some(p.mech));
    if !p.ok then Asked(s1, p.mech, false, false)
    else if p.token.None? then Asked(s1, p.mech, true, false)
    else
      match SendCommand(s1, Msg(p.token.value, false, true))
      case None => Asked(s1, p.mech, false, false)
      case Some(s2) => Asked(s2, p.mech, true, true)
  }

  function ArmSecurity(s: H): Flow {
    match s.mech
    case None => Abort(s, InvalidState)
    case Some(m) =>
      if Complete(m) then LeaveSecurity(s, m)
      else
        var a := AskToken(s, m);
        if !a.ok then Fail(a.s, SecurityError) else ReadToken(a.s, a.mech, a.sent)
  }

  /** Give the peer's next token, if it is there, to the mechanism and send its answer. */
  function ReadToken(s: H, m: Mechanism, acted: bool): Flow {
    if s.acc == [] then AfterTokens(s, m, acted)
    else
      var o := TryRead(s.framer, s.cfg.maxMsgSize, s.acc);
      OnToken(Take(s, o), m, acted, o.res)
  }

  function OnToken(s: H, m: Mechanism, acted: bool, res: ReadRes): Flow {
    match res
    case Nothing => AfterTokens(s, m, acted)
    case Failed => Abort(s, SecurityError)
    case Frame(msg) => if msg.command then GotToken(s, ProcessToken(m, msg.data)) else Abort(s, SecurityError)
  }

  function GotToken(s: H, p: MechProcessed): Flow {
    var t := s.(mech := Some(p.mech));
    if !p.ok then Fail(t, SecurityError)
    else
      var b := AskToken(t, p.mech);
      if !b.ok then Fail(b.s, SecurityError) else AfterTokens(b.s, b.mech, true)
  }

  function AfterTokens(s: H, m: Mechanism, acted: bool): Flow {
    if Complete(m) then LeaveSecurity(s, m)
    else if InError(m) then Abort(s, SecurityError)
    else if !acted && s.acc == [] then Stop(s)
    else Next(s, acted)
  }

  function WithIdentity(s: H, props: Properties): H {
    if IdentityName() in props then s.(idReady := Some(props[IdentityName()])) else s
  }

  function ArmReady(s: H): Flow {
    if s.acc == [] then Stop(s)
    else
      var o := TryRead(s.framer, s.cfg.maxMsgSize, s.acc);
      OnReadyFrame(Take(s, o), o.res)
  }

  function OnReadyFrame(s: H, res: ReadRes): Flow {
    match res
    case Nothing => Stop(s)
    case Failed => Abort(s, ProtocolViolation)
    case Frame(m) => OnReady(s, CommandOf(m))
  }

  function OnReady(s: H, c: Option<Command>): Flow {
    if c.Some? && c.value.Ready? then
      var t := WithIdentity(s, c.value.props);
      if s.phase == ReadyClientWaitServer then EnterData(t) else SendReady(t, ReadyServerSend)
    else Abort(s, ProtocolViolation)
  }

  /** One frame received in the data phase. */
  function HandleFrame(s: H, m: Msg): Flow {
    if m.command then
      if s.version == Some(V2) then Abort(s, ProtocolViolation) else OnCommand(s, CommandOf(m))
    else
      var t := TrySend(s, Data(m));
      if t.ok then Next(t.s, true) else Abort(t.s, Internal)
  }

  function OnCommand(s: H, c: Option<Command>): Flow {
    match c
    case Some(Ping(context)) =>
      (match SendCommand(s, PongMsg(context))
       case None => Fail(s, Internal)
       case Some(u) => Next(u, true))
    case Some(Pong(_)) => Next(s.(waitingPong := false), true)
    case Some(PeerError) => Abort(s, ProtocolViolation)
    case _ => Next(s, true)
  }

  /** A write leaves the reading half of a framer alone. */
  lemma WriteKeepsReader(f: Framer, ms: seq<Msg>)
    ensures Write(f, ms).Some? ==>
              var g := Write(f, ms).value.framer;
              && g.parser == f.parser && DecryptedLeft(g) == DecryptedLeft(f) && g.Secure? == f.Secure?
              && (f.Plain? ==> g == f)
  {
  }

  lemma SendCommandKeeps(s: H, m: Msg)
    ensures SendCommand(s, m).Some? ==>
              var t := SendCommand(s, m).value;
              && t == s.(framer := t.framer, ops := t.ops)
              && t.framer.parser == s.framer.parser && DecryptedLeft(t.framer) == DecryptedLeft(s.framer)
              && t.framer.Secure? == s.framer.Secure?
  {
  }

  lemma HandleFrameKeeps(s: H, m: Msg)
    ensures var f := HandleFrame(s, m);
            f.Next? ==>
              && f.s.phase == s.phase && f.s.mech == s.mech && f.s.greeting == s.greeting && f.s.acc == s.acc
              && f.s.framer.parser == s.framer.parser && DecryptedLeft(f.s.framer) == DecryptedLeft(s.framer)
              && f.s.framer.Secure? == s.framer.Secure?
  {
    if m.command && CommandOf(m).Some? && CommandOf(m).value.Ping? {
      SendCommandKeeps(s, PongMsg(CommandOf(m).value.context));
    }
  }

  /** Reads frames until none is complete. */
  function DataLoop(s: H, progress: bool): Flow
    decreases |s.acc|, DecryptedLeft(s.framer), BodyPending(s.framer)
  {
    TryReadConsumes(s.framer, s.cfg.maxMsgSize, s.acc);
    var o := TryRead(s.framer, s.cfg.maxMsgSize, s.acc);
    match o.res
    case Nothing => Next(Take(s, o), progress)
    case Failed => Abort(Take(s, o), ProtocolViolation)
    case Frame(m) =>
      HandleFrameKeeps(Take(s, o), m);
      match HandleFrame(Take(s, o), m)
      case Next(t, _) => DataLoop(t, true)
      case other => other
  }

  function Arm(s: H): Flow {
    match s.phase
    case Initial => Abort(s, InvalidState)
    case WaitPeerRevision => ArmPeerRevision(s)
    case WaitV3Greeting => ArmV3Greeting(s)
    case V2GreetingExchange => ArmV2Greeting(s)
    case V2WaitIdentity => ArmV2Identity(s)
    case SecurityExchange => ArmSecurity(s)
    case ReadyServerWaitClient => ArmReady(s)
    case ReadyClientWaitServer => ArmReady(s)
    case DataPhase => DataLoop(s, false)
    case _ => Stop(s)
  }

  // --- The phase loop ends ---

  /** Phases in the order a connection goes through them. */
  function Rank(p: Phase): nat {
    match p
    case Initial => 0
    case SendSignature => 1
    case WaitPeerRevision => 2
    case SendV3Tail => 3
    case SendV2Tail => 3
    case WaitV3Greeting => 4
    case V2GreetingExchange => 4
    case SecurityExchange => 5
    case V2SendIdentity => 5
    case V2WaitIdentity => 6
    case ReadyClientSend => 6
    case ReadyServerWaitClient => 6
    case ReadyClientWaitServer => 7
    case ReadyServerSend => 7
    case DataPhase => 8
    case ClosingPhase => 9
    case ErrorPhase => 10
    case ClosedPhase => 11
  }

  function RankLeft(s: H): nat { 11 - Rank(s.phase) }

  function TokensLeft(s: H): nat {
    if s.mech.Some? then StepsLeft(s.mech.value) else 0
  }

  /** The measure of the phase loop: phases to go, then security steps to go, then unread octets. */
  predicate Smaller(t: H, s: H) {
    || RankLeft(t) < RankLeft(s)
    || (RankLeft(t) == RankLeft(s)
        && (|| TokensLeft(t) < TokensLeft(s)
            || (TokensLeft(t) == TokensLeft(s) && SmallerInput(t, s))))
  }

  predicate SmallerInput(t: H, s: H) {
    || |t.acc| < |s.acc|
    || (|t.acc| == |s.acc| && DecryptedLeft(t.framer) < DecryptedLeft(s.framer))
    || (|t.acc| == |s.acc| && DecryptedLeft(t.framer) == DecryptedLeft(s.framer)
        && BodyPending(t.framer) < BodyPending(s.framer))
  }

  predicate NotLargerInput(t: H, s: H) {
    SmallerInput(t, s) || (|t.acc| == |s.acc| && DecryptedLeft(t.framer) == DecryptedLeft(s.framer)
                           && BodyPending(t.framer) == BodyPending(s.framer))
  }

  /** The loop goes round again only after such a change. */
  predicate Changed(s: H, t: H, progress: bool) {
    progress || |t.greeting| != |s.greeting| || |t.acc| != |s.acc|
  }
}
