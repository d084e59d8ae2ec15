/** A handler that runs NOISE_XX keeps its accounts in order through every round and every call. */
module SecureDelivery {
  import opened Bytes
  import opened Frames
  import opened Framers
  import opened Commands
  import opened Greeting
  import opened NoiseXx
  import opened Mechanisms
  import opened Handler
  import opened HandlerSteps
  import opened SecureStreams
  import opened SecureSession
  import opened SecureBooks
  import opened SecureAccounts

  // --- The account of a handler ---

  /** How sends and events are read: one after another. */
  datatype View = View(lay: Reading, tally: Tally, data: seq<UpEvent> -> seq<Msg>)

  ghost predicate Views(v: View) {
    && Lays(v.lay) && Tallies(v.tally)
    && forall es, e :: v.data(es + [e]) == v.data(es) + (if e.Data? then [e.msg] else [])
  }

  function TranscriptIn(s: H): Option<Transcript> {
    if s.phase == SecurityExchange && s.mech.Some? && s.mech.value.NoiseM? && s.mech.value.noise.state.Some?
    then Some(s.mech.value.noise.state.value.transcript) else None
  }

  function Acc(v: View, s: H): Account {
    var l := v.lay(s.ops);
    Account(l.tokens, l.secured, v.tally(s.ops), s.framer, s.framed, v.data(s.events), Established(s.phase), TranscriptIn(s))
  }

  /** The account after a round; an error stops the session. */
  function FlowAcc(v: View, f: Flow): Account { if f.Fail? then Halt(Acc(v, f.s)) else Acc(v, f.s) }

  lemma Silent(v: View, es: seq<UpEvent>, e: UpEvent)
    requires Views(v) && !e.Data?
    ensures v.data(es + [e]) == v.data(es)
  {
    assert v.data(es) + [] == v.data(es);
  }

  lemma CloseTallies(tally: Tally, ops: seq<Blueprint>)
    requires Tallies(tally)
    ensures tally(WithClose(ops)) == tally(ops)
  {
    assert tally(ops) + [] == tally(ops);
  }

  lemma ErrorAcc(v: View, s: H, e: ErrorKind)
    requires Views(v)
    ensures Acc(v, ToError(s, e)) == Halt(Acc(v, s))
  {
    CloseLays(v.lay, s.ops);
    CloseTallies(v.tally, s.ops);
    Silent(v, s.events, Fault(e));
  }

  lemma AbortAcc(v: View, s: H, e: ErrorKind)
    requires Views(v)
    ensures FlowAcc(v, Abort(s, e)) == Halt(Acc(v, s))
  {
    ErrorAcc(v, s, e);
  }

  lemma SealedSend(v: View, ops: seq<Blueprint>, b: Blueprint, ms: seq<Msg>)
    requires Views(v) && b.Send? && b.secure && Carried(b) == [ms] && v.lay(ops).ok
    ensures v.lay(ops + [b]) == v.lay(ops).(secured := v.lay(ops).secured + b.data)
    ensures v.tally(ops + [b]) == v.tally(ops) + [ms]
  {
    SecureLays(v.lay, ops, b);
  }

  lemma CommandAcc(v: View, s: H, m: Msg)
    requires Views(v) && s.framer.Secure? && v.lay(s.ops).ok
    ensures SendCommand(s, m).Some? ==>
              Write(s.framer, [m]).Some? && Acc(v, SendCommand(s, m).value) == Seal(Acc(v, s), [m], false)
  {
    if Write(s.framer, [m]).Some? {
      SealedSend(v, s.ops, Send(Write(s.framer, [m]).value.wire, CommandFrame(m), true, false), [m]);
    }
  }

  lemma AppAcc(v: View, s: H, parts: seq<Msg>, queue: seq<seq<Msg>>)
    requires Views(v) && s.framer.Secure? && v.lay(s.ops).ok && Write(s.framer, parts).Some?
    ensures var w := Write(s.framer, parts).value;
            Acc(v, EmitApp(s.(framer := w.framer, queue := queue), w.wire, parts)) == Seal(Acc(v, s), parts, true)
  {
    var w := Write(s.framer, parts).value;
    SealedSend(v, s.ops, Send(w.wire, AppParts(parts), true, s.cfg.zeroCopy && |w.wire| > ZC_SEND_THRESHOLD), parts);
  }

  lemma AnnounceAcc(v: View, s: H)
    requires Views(v)
    ensures Acc(v, Announce(s).s) == Acc(v, s)
  {
    Silent(v, s.events, HandshakeComplete(Or(s.idReady, s.idSecurity)));
  }

  lemma DataAcc(v: View, s: H, m: Msg)
    requires Views(v) && s.room > 0
    ensures Acc(v, TrySend(s, Data(m)).s) == Acc(v, s).(told := Acc(v, s).told + [m])
  {
  }

  // --- What is asked of an account ---

  ghost predicate Halts(good: Account -> bool) { forall a :: good(a) ==> good(Halt(a)) }

  ghost predicate Seals(good: Account -> bool) {
    forall a: Account, ms: seq<Msg>, app: bool :: good(a) && a.framer.Secure? && Write(a.framer, ms).Some? && (app || (|ms| == 1 && ms[0].command)) ==>
      good(Seal(a, ms, app))
  }

  ghost predicate ReadsOn(k: Case, good: Account -> bool) {
    forall a: Account, net, octets, o, stops {:trigger OpenedFrom(a.framer, net, octets), Afterwards(a, o, stops)} ::
      good(a) && a.framer.Secure? && a.live && OpenedFrom(a.framer, net, octets) && octets <= k.stream
      && o == TryRead(a.framer, k.max, net) && (o.res.Failed? ==> stops) ==>
        good(Afterwards(a, o, stops))
  }

  ghost predicate StaysPlain(k: Case, good: Account -> bool) {
    && (forall a :: good(a) && a.framer.Plain? ==> PlainGood(k, a))
    && (forall a: Account, b: Account {:trigger good(a), PlainGood(k, b)} ::
          good(a) && a.framer.Plain? && b.framer.Plain? && PlainGood(k, b) && a.own <= b.own && |b.own| <= Writes(k.isServer) ==> good(b))
  }

  ghost predicate Switches(k: Case, good: Account -> bool) {
    forall a :: good(a) && a.framer.Plain? && AllTokens(k, a.own) ==> good(Switched(k, a))
  }

  ghost predicate Laws(k: Case, good: Account -> bool) {
    Halts(good) && Seals(good) && ReadsOn(k, good) && StaysPlain(k, good) && Switches(k, good)
  }

  lemma UseHalt(k: Case, good: Account -> bool, a: Account)
    requires Laws(k, good) && good(a)
    ensures good(Halt(a))
  {
  }

  lemma UseSeal(k: Case, good: Account -> bool, a: Account, ms: seq<Msg>, app: bool)
    requires Laws(k, good) && good(a) && a.framer.Secure? && Write(a.framer, ms).Some? && (app || (|ms| == 1 && ms[0].command))
    ensures good(Seal(a, ms, app))
  {
  }

  lemma UseRead(k: Case, good: Account -> bool, a: Account, net: Octets, octets: Octets, o: ReadOut, stops: bool)
    requires Laws(k, good) && good(a) && a.framer.Secure? && a.live && OpenedFrom(a.framer, net, octets) && octets <= k.stream
    requires o == TryRead(a.framer, k.max, net) && (o.res.Failed? ==> stops)
    ensures good(Afterwards(a, o, stops))
  {
  }

  lemma UsePlain(k: Case, good: Account -> bool, a: Account, b: Account)
    requires Laws(k, good) && good(a) && a.framer.Plain? && b.framer.Plain?
    requires PlainGood(k, a) ==> PlainGood(k, b)
    requires a.own <= b.own && |b.own| <= Writes(k.isServer)
    ensures good(b)
  {
  }

  lemma UseSwitch(k: Case, good: Account -> bool, a: Account)
    requires Laws(k, good) && good(a) && a.framer.Plain? && AllTokens(k, a.own)
    ensures good(Switched(k, a))
  {
  }

  /** The case is that of this handler and this peer. */
  ghost predicate Fits(k: Case, s: H, peer: Layout) {
    && k.isServer == s.isServer && k.max == s.cfg.maxMsgSize
    && s.cfg.security.noise.Some? && k.suite == s.cfg.security.noise.value.suite
    && k.peer == peer.tokens && k.stream == peer.secured
  }

  // --- The established session ---

  /** What follows the switch is what the peer sealed. */
  lemma SecuredPart(r: Octets, peer: Layout, isServer: bool)
    requires Heard(r, peer, !isServer) && |peer.tokens| == Reads(isServer) && Switch(peer, isServer) <= r
    ensures r[|Switch(peer, isServer)|..] <= peer.secured
  {
    PeerPrelude(peer, !isServer, r);
    assert peer.tokens[..|peer.tokens|] == peer.tokens;
    var front := Switch(peer, isServer);
    assert OctetsOf(peer) == front + peer.secured;
    var rest := r[|front|..];
    assert front + rest == r;
    PrefixOfRest(front, rest, peer.secured);
  }

  /** What a read leaves behind, told or stopped. */
  lemma TakeGood(v: View, k: Case, good: Account -> bool, s: H, r: Octets, peer: Layout, o: ReadOut, stops: bool)
    requires Laws(k, good) && Fits(k, s, peer) && Secured(v.lay, s, r, peer) && Heard(r, peer, !s.isServer) && good(Acc(v, s))
    requires o == TryRead(s.framer, s.cfg.maxMsgSize, s.acc) && (o.res.Failed? ==> stops)
    ensures good(Afterwards(Acc(v, s), o, stops))
  {
    SecuredPart(r, peer, s.isServer);
    UseRead(k, good, Acc(v, s), s.acc, r[|Switch(peer, s.isServer)|..], o, stops);
  }

  lemma TakeAcc(v: View, s: H, o: ReadOut)
    ensures Acc(v, Take(s, o)) == Acc(v, s).(framer := o.framer)
  {
  }

  lemma SentGood(v: View, k: Case, good: Account -> bool, s: H, sent: Option<H>, next: Phase)
    requires good(Halt(Acc(v, s))) && Established(next)
    requires sent.Some? ==> good(Acc(v, sent.value)) && Established(sent.value.phase)
    ensures good(FlowAcc(v, ReadySent(s, sent, next)))
  {
    if sent.Some? {
      assert Acc(v, sent.value.(phase := next)) == Acc(v, sent.value);
    }
  }

  lemma CommandGood(v: View, k: Case, good: Account -> bool, s: H, m: Msg)
    requires Views(v) && Laws(k, good) && good(Acc(v, s)) && s.framer.Secure? && v.lay(s.ops).ok && m.command
    ensures SendCommand(s, m).Some? ==> good(Acc(v, SendCommand(s, m).value)) && SendCommand(s, m).value.phase == s.phase
  {
    CommandAcc(v, s, m);
    if SendCommand(s, m).Some? {
      UseSeal(k, good, Acc(v, s), [m], false);
    }
  }

  lemma SendReadyGood(v: View, k: Case, good: Account -> bool, s: H, next: Phase)
    requires Views(v) && Laws(k, good) && good(Acc(v, s)) && s.framer.Secure? && v.lay(s.ops).ok
    requires Established(s.phase) && Established(next)
    ensures good(FlowAcc(v, SendReady(s, next)))
  {
    CommandGood(v, k, good, s, OwnReady(s.cfg));
    UseHalt(k, good, Acc(v, s));
    SentGood(v, k, good, s, SendCommand(s, OwnReady(s.cfg)), next);
  }

  lemma EnterDataGood(v: View, k: Case, good: Account -> bool, s: H)
    requires Views(v) && Laws(k, good) && good(Acc(v, s)) && Established(s.phase)
    ensures good(FlowAcc(v, EnterData(s)))
  {
    assert Acc(v, s.(phase := DataPhase)) == Acc(v, s);
    AnnounceAcc(v, s.(phase := DataPhase));
    UseHalt(k, good, Acc(v, s));
  }

  lemma OnReadyGood(v: View, k: Case, good: Account -> bool, s: H, c: Option<Command>)
    requires Views(v) && Laws(k, good) && s.framer.Secure? && v.lay(s.ops).ok && Established(s.phase)
    requires good(Halt(Acc(v, s))) && (c.Some? && c.value.Ready? ==> good(Acc(v, s)))
    ensures good(FlowAcc(v, OnReady(s, c)))
  {
    if c.Some? && c.value.Ready? {
      var t := WithIdentity(s, c.value.props);
      assert Acc(v, t) == Acc(v, s);
      if s.phase == ReadyClientWaitServer {
        EnterDataGood(v, k, good, t);
      } else {
        SendReadyGood(v, k, good, t, ReadyServerSend);
      }
    } else {
      AbortAcc(v, s, ProtocolViolation);
    }
  }

  lemma ReadyRoundGood(v: View, k: Case, good: Account -> bool, s: H, r: Octets, peer: Layout)
    requires Views(v) && Laws(k, good) && Fits(k, s, peer) && Secured(v.lay, s, r, peer) && Heard(r, peer, !s.isServer) && good(Acc(v, s))
    ensures good(FlowAcc(v, ArmReady(s)))
  {
    if s.acc != [] {
      var o := TryRead(s.framer, s.cfg.maxMsgSize, s.acc);
      var t := Take(s, o);
      TakeAcc(v, s, o);
      TakeGood(v, k, good, s, r, peer, o, true);
      TryReadConsumes(s.framer, s.cfg.maxMsgSize, s.acc);
      match o.res
      case Nothing => TakeGood(v, k, good, s, r, peer, o, false);
      case Failed => AbortAcc(v, t, ProtocolViolation);
      case Frame(m) =>
        if m.command {
          TakeGood(v, k, good, s, r, peer, o, false);
        }
        OnReadyGood(v, k, good, t, CommandOf(m));
    }
  }

  lemma OnCommandGood(v: View, k: Case, good: Account -> bool, s: H, c: Option<Command>)
    requires Views(v) && Laws(k, good) && s.framer.Secure? && v.lay(s.ops).ok && good(Acc(v, s))
    ensures good(FlowAcc(v, OnCommand(s, c)))
  {
    UseHalt(k, good, Acc(v, s));
    if c.Some? && c.value.Ping? {
      var m := PongMsg(c.value.context);
      CommandAcc(v, s, m);
      if SendCommand(s, m).Some? {
        UseSeal(k, good, Acc(v, s), [m], false);
      }
    } else {
      AbortAcc(v, s, ProtocolViolation);
    }
  }

  lemma HandleFrameGood(v: View, k: Case, good: Account -> bool, s: H, m: Msg)
    requires Views(v) && Laws(k, good) && s.framer.Secure? && v.lay(s.ops).ok
    requires good(Halt(Acc(v, s))) && (m.command ==> good(Acc(v, s)))
    requires !m.command ==> good(Acc(v, s).(told := Acc(v, s).told + [m]))
    ensures good(FlowAcc(v, HandleFrame(s, m)))
  {
    if m.command {
      AbortAcc(v, s, ProtocolViolation);
      OnCommandGood(v, k, good, s, CommandOf(m));
    } else if s.room > 0 {
      DataAcc(v, s, m);
    } else {
      AbortAcc(v, s, Internal);
    }
  }

  /** One frame of the data phase, read and dealt with. */
  lemma FrameGood(v: View, k: Case, good: Account -> bool, s: H, r: Octets, peer: Layout, o: ReadOut)
    requires Views(v) && Laws(k, good) && Fits(k, s, peer) && Secured(v.lay, s, r, peer) && Heard(r, peer, !s.isServer) && good(Acc(v, s))
    requires s.phase == DataPhase && o == TryRead(s.framer, s.cfg.maxMsgSize, s.acc) && o.res.Frame?
    ensures var f := HandleFrame(Take(s, o), o.res.msg);
            good(FlowAcc(v, f)) && (f.Next? ==> Secured(v.lay, f.s, r, peer) && f.s.phase == DataPhase && Fits(k, f.s, peer))
  {
    SecureTake(v.lay, s, r, peer);
    var t := Take(s, o);
    TakeAcc(v, s, o);
    TakeGood(v, k, good, s, r, peer, o, true);
    TakeGood(v, k, good, s, r, peer, o, false);
    HandleFrameGood(v, k, good, t, o.res.msg);
    HandleFrameSecure(v.lay, t, o.res.msg, r, peer);
    HandleFrameKeeps(t, o.res.msg);
  }

  lemma NoFrameGood(v: View, k: Case, good: Account -> bool, s: H, r: Octets, peer: Layout, o: ReadOut)
    requires Views(v) && Laws(k, good) && Fits(k, s, peer) && Secured(v.lay, s, r, peer) && Heard(r, peer, !s.isServer) && good(Acc(v, s))
    requires o == TryRead(s.framer, s.cfg.maxMsgSize, s.acc) && !o.res.Frame?
    ensures o.res.Nothing? ==> good(Acc(v, Take(s, o)))
    ensures o.res.Failed? ==> good(FlowAcc(v, Abort(Take(s, o), ProtocolViolation)))
  {
    TakeAcc(v, s, o);
    TakeGood(v, k, good, s, r, peer, o, o.res.Failed?);
    AbortAcc(v, Take(s, o), ProtocolViolation);
  }

  lemma {:induction false} DataLoopGood(v: View, k: Case, good: Account -> bool, s: H, progress: bool, r: Octets, peer: Layout)
    requires Views(v) && Laws(k, good) && Fits(k, s, peer) && Secured(v.lay, s, r, peer) && Heard(r, peer, !s.isServer) && good(Acc(v, s))
    requires s.phase == DataPhase
    ensures good(FlowAcc(v, DataLoop(s, progress)))
    decreases |s.acc|, DecryptedLeft(s.framer), BodyPending(s.framer)
  {
    TryReadConsumes(s.framer, s.cfg.maxMsgSize, s.acc);
    var o := TryRead(s.framer, s.cfg.maxMsgSize, s.acc);
    if o.res.Frame? {
      FrameGood(v, k, good, s, r, peer, o);
      HandleFrameKeeps(Take(s, o), o.res.msg);
      var f := HandleFrame(Take(s, o), o.res.msg);
      if f.Next? {
        DataLoopGood(v, k, good, f.s, true, r, peer);
      }
    } else {
      NoFrameGood(v, k, good, s, r, peer, o);
    }
  }

  // --- Up to the greeting ---

  lemma ControlLays(v: View, ops: seq<Blueprint>, data: Octets)
    requires Views(v)
    ensures var b := Send(data, Control, false, false);
            && v.tally(ops + [b]) == v.tally(ops)
            && v.lay(ops + [b]).tokens == v.lay(ops).tokens && v.lay(ops + [b]).secured == v.lay(ops).secured
  {
    assert v.tally(ops) + [] == v.tally(ops);
  }

  /** Nothing is encrypted, framed or told. */
  predicate StillPlain(v: View, s: H, t: H) {
    var a, b := Acc(v, s), Acc(v, t);
    && s.framer.Plain? && t.framer.Plain? && b.own == a.own && b.secured == a.secured
    && (a.batches == [] ==> b.batches == []) && (a.framed == [] ==> b.framed == []) && (a.told == [] ==> b.told == [])
  }

  lemma StillPlainGood(v: View, k: Case, good: Account -> bool, s: H, t: H)
    requires Laws(k, good) && good(Acc(v, s)) && StillPlain(v, s, t) && |Acc(v, s).own| <= Writes(k.isServer)
    ensures good(Halt(Acc(v, t)))
    ensures TranscriptIn(t).None? ==> good(Acc(v, t))
  {
    UsePlain(k, good, Acc(v, s), Halt(Acc(v, t)));
    if TranscriptIn(t).None? {
      UsePlain(k, good, Acc(v, s), Acc(v, t));
    }
  }

  lemma OnRevisionPlain(v: View, s: H, revision: Option<Byte>)
    requires Views(v) && s.framer.Plain? && s.phase == WaitPeerRevision
    ensures var f := OnRevision(s, revision);
            if f.Fail? then Acc(v, f.s) == Halt(Acc(v, s)) else StillPlain(v, s, f.s) && TranscriptIn(f.s).None?
  {
    ErrorAcc(v, s, ProtocolViolation);
    ControlLays(v, s.ops, V3Tail(Proposed(s.cfg.security, s.isServer), s.isServer));
    var code := SocketTypeCode(s.cfg.socketType);
    if code.Some? {
      ControlLays(v, s.ops, [code.value]);
    }
  }

  lemma FillAcc(v: View, s: H, target: nat)
    ensures Acc(v, Fill(s, target)) == Acc(v, s) && Fill(s, target).framer == s.framer && Fill(s, target).phase == s.phase
  {
  }

  lemma PeerRevisionGood(v: View, k: Case, good: Account -> bool, s: H, r: Octets, peer: Layout)
    requires Views(v) && Laws(k, good) && Fits(k, s, peer) && Opening(v.lay, s, r) && s.phase == WaitPeerRevision && good(Acc(v, s))
    ensures good(FlowAcc(v, ArmPeerRevision(s)))
  {
    FillAcc(v, s, PEEK_LENGTH);
    var x := Fill(s, PEEK_LENGTH);
    UseHalt(k, good, Acc(v, s));
    if |x.greeting| >= PEEK_LENGTH {
      var revision := PeekRevision(x.greeting[..PEEK_LENGTH]);
      OnRevisionPlain(v, x, revision);
      var f := OnRevision(x, revision);
      if !f.Fail? {
        StillPlainGood(v, k, good, x, f.s);
      }
    }
  }

  lemma NegotiatedGood(v: View, k: Case, good: Account -> bool, s: H, g: V3Greeting)
    requires Views(v) && Laws(k, good) && good(Acc(v, s)) && s.framer.Plain? && s.phase == WaitV3Greeting
    requires v.lay(s.ops).tokens == [] && NoiseOnly(s.cfg.security, s.isServer)
    requires g.mechanism == NoiseName() && g.asServer == !s.isServer
    ensures good(FlowAcc(v, OnGreeting(s, Some(g))))
  {
    NoiseNegotiated(s.cfg.security, s.isServer);
    var f := OnGreeting(s, Some(g));
    assert f.Next? && TranscriptIn(f.s) == Some([]);
    UsePlain(k, good, Acc(v, s), Acc(v, f.s));
  }

  lemma V3GreetingGood(v: View, k: Case, good: Account -> bool, s: H, r: Octets, peer: Layout)
    requires Views(v) && Laws(k, good) && Fits(k, s, peer) && Opening(v.lay, s, r) && Heard(r, peer, !s.isServer)
    requires s.phase == WaitV3Greeting && good(Acc(v, s))
    ensures good(FlowAcc(v, ArmV3Greeting(s)))
  {
    PeerPrelude(peer, !s.isServer, r);
    FillAcc(v, s, GREETING_LENGTH);
    FillFront(s, GREETING_LENGTH, r);
    var f := Fill(s, GREETING_LENGTH);
    if |f.greeting| >= GREETING_LENGTH {
      assert f.greeting == Hello(!s.isServer);
      HelloDecodes(!s.isServer);
      assert f.greeting[64..] == [];
      var x := f.(greeting := []);
      assert Acc(v, x) == Acc(v, s);
      NegotiatedGood(v, k, good, x, V3Greeting(0, NoiseName(), !s.isServer));
    }
  }

  // --- The security exchange ---

  lemma AskWeaves(n: NoiseMech, isServer: bool, sent: nat, got: nat)
    requires Midway(n, isServer, sent, got)
    ensures var p := ProduceNoise(n);
            && p.mech.state.Some?
            && p.mech.state.value.transcript == n.state.value.transcript + (if p.token.Some? then [p.token.value] else [])
  {
    AskMidway(n, isServer, sent, got);
    assert n.state.value.transcript + [] == n.state.value.transcript;
  }

  /** What a token does to the transcript. */
  lemma GiveWeaves(n: NoiseMech, isServer: bool, got: nat, token: Octets)
    requires Midway(n, isServer, if isServer then got else 1, got)
    ensures var q := ProcessNoise(n, token);
            var p := ProduceNoise(q.mech);
            var t := n.state.value.transcript;
            q.action.Refused? || !p.ok ||
            (if isServer && got == 0 then
               p.token.Some? && p.mech.state.Some? && p.mech.state.value.transcript == t + [token] + [p.token.value]
             else if isServer then p.mech.transport == Some(t + [token])
             else p.token.Some? && p.mech.transport == Some(t + [token] + [p.token.value]))
  {
  }

  /** A plain token goes out. */
  lemma TokenAcc(v: View, s: H, m: Msg)
    requires Views(v) && s.framer.Plain? && v.lay(s.ops).ok && v.lay(s.ops).secured == []
    ensures SendCommand(s, m).Some?
    ensures var t := SendCommand(s, m).value;
            && t == s.(ops := t.ops) && v.tally(t.ops) == v.tally(s.ops)
            && v.lay(t.ops).tokens == v.lay(s.ops).tokens + [m] && v.lay(t.ops).secured == []
  {
    TokenLays(v.lay, s, m);
    assert v.tally(s.ops) + [] == v.tally(s.ops);
  }

  /** The account of a handler that asked its mechanism, the transcript apart. */
  lemma AskAcc(v: View, s: H, n: NoiseMech)
    requires Views(v) && s.framer.Plain? && v.lay(s.ops).ok && v.lay(s.ops).secured == []
    ensures var p := ProduceNoise(n);
            var a := AskToken(s, NoiseM(n));
            && a.ok == p.ok && a.mech == NoiseM(p.mech) && a.s == s.(mech := Some(a.mech), ops := a.s.ops)
            && v.tally(a.s.ops) == v.tally(s.ops) && v.lay(a.s.ops).secured == []
            && v.lay(a.s.ops).tokens ==
               v.lay(s.ops).tokens + (if p.ok && p.token.Some? then [Msg(p.token.value, false, true)] else [])
  {
    var p := ProduceNoise(n);
    var own := v.lay(s.ops).tokens;
    assert own + [] == own;
    if p.ok && p.token.Some? {
      TokenAcc(v, s.(mech := Some(NoiseM(p.mech))), Msg(p.token.value, false, true));
    }
  }

  lemma AskRoundGood(v: View, k: Case, good: Account -> bool, s: H, r: Octets, peer: Layout)
    requires Views(v) && Laws(k, good) && Fits(k, s, peer) && Exchanging(v.lay, s, r, peer) && good(Acc(v, s))
    ensures good(Acc(v, AskToken(s, s.mech.value).s))
  {
    var n := s.mech.value.noise;
    var own := v.lay(s.ops).tokens;
    AskSecure(v.lay, s, r, peer);
    AskMidway(n, s.isServer, |own|, GotWith(s.isServer, |own|));
    AskWeaves(n, s.isServer, |own|, GotWith(s.isServer, |own|));
    AskAcc(v, s, n);
    UsePlain(k, good, Acc(v, s), Acc(v, AskToken(s, s.mech.value).s));
  }

  lemma MidwayAcc(v: View, s: H, acted: bool, r: Octets, peer: Layout)
    requires Exchanging(v.lay, s, r, peer)
    ensures FlowAcc(v, AfterTokens(s, s.mech.value, acted)) == Acc(v, s)
  {
  }

  /** The change to encryption, with the keys of this handshake. */
  lemma LeaveGood(v: View, k: Case, good: Account -> bool, s: H, n: NoiseMech)
    requires Views(v) && Laws(k, good) && good(Acc(v, s)) && s.framer.Plain? && v.lay(s.ops).ok && k.isServer == s.isServer
    requires Over(n) && n.suite == k.suite && AllTokens(k, v.lay(s.ops).tokens)
    requires n.transport == Some(Script(k.isServer, v.lay(s.ops).tokens, k.peer))
    ensures good(FlowAcc(v, LeaveSecurity(s, NoiseM(n))))
  {
    UseSwitch(k, good, Acc(v, s));
    var t := s.(mech := None, framer := NoiseFramer(n).value, idSecurity := Or(s.idSecurity, n.verified), phase := ReadyClientSend);
    assert Acc(v, t) == Switched(k, Acc(v, s));
    assert Acc(v, t.(phase := ReadyServerWaitClient)) == Acc(v, t);
    if !s.isServer {
      SendReadyGood(v, k, good, t, ReadyClientSend);
    }
  }

  lemma RefusedAcc(v: View, s: H, m: Mechanism, t: H)
    requires t == s.(mech := Some(m), ops := t.ops) && v.lay(t.ops) == v.lay(s.ops) && v.tally(t.ops) == v.tally(s.ops)
    ensures Halt(Acc(v, t)) == Halt(Acc(v, s))
  {
  }

  /** The client's transcript when it is done, or the server's. */
  lemma ScriptWoven(isServer: bool, own: seq<Msg>, peer: seq<Msg>, token: Octets, answer: Octets)
    requires isServer ==> |own| == 1 && |peer| == 2 && peer[1].data == token
    requires !isServer ==> |own| == 1 && |peer| == 1 && peer[0].data == token
    ensures isServer ==> Weave(isServer, own, peer) + [token] == Script(isServer, own, peer)
    ensures !isServer ==>
              Weave(isServer, own, peer) + [token] + [answer] == Script(isServer, own + [Msg(answer, false, true)], peer)
  {
  }

  /** The server's answer to the first token. */
  lemma FirstAnswerGood(v: View, k: Case, good: Account -> bool, s: H, n: NoiseMech, token: Octets, t: H)
    requires Laws(k, good) && good(Acc(v, s)) && s.framer.Plain? && s.isServer && k.isServer && v.lay(s.ops).tokens == []
    requires t == s.(mech := Some(NoiseM(n)), ops := t.ops) && v.tally(t.ops) == v.tally(s.ops) && v.lay(t.ops).secured == v.lay(s.ops).secured
    requires s.phase == SecurityExchange && k.peer != [] && k.peer[0].data == token
    requires |v.lay(t.ops).tokens| == 1 && n.state.Some?
    requires n.state.value.transcript == [token] + [v.lay(t.ops).tokens[0].data]
    ensures good(Acc(v, t))
  {
    UsePlain(k, good, Acc(v, s), Acc(v, t));
  }

  /** After the last token nothing is left of the unfinished handshake. */
  lemma LastAnswerGood(v: View, k: Case, good: Account -> bool, s: H, n: NoiseMech, t: H)
    requires Laws(k, good) && good(Acc(v, s)) && s.framer.Plain? && v.lay(s.ops).tokens <= v.lay(t.ops).tokens
    requires t == s.(mech := Some(NoiseM(n)), ops := t.ops) && v.tally(t.ops) == v.tally(s.ops) && v.lay(t.ops).secured == v.lay(s.ops).secured
    requires |v.lay(t.ops).tokens| <= Writes(k.isServer) && n.state.None?
    ensures good(Acc(v, t))
  {
    UsePlain(k, good, Acc(v, s), Acc(v, t));
  }

  lemma OverStateless(n: NoiseMech, isServer: bool, got: nat, token: Octets)
    requires Midway(n, isServer, if isServer then got else 1, got)
    ensures var p := ProduceNoise(ProcessNoise(n, token).mech); Over(p.mech) ==> p.mech.state.None?
  {
  }

  /** The last answer completes the transcript, and the session changes to encryption. */
  lemma LastLeaves(v: View, k: Case, good: Account -> bool, s: H, n: NoiseMech, token: Octets, answer: Octets, t: H)
    requires Views(v) && Laws(k, good) && good(Acc(v, s)) && s.framer.Plain? && k.isServer == s.isServer && v.lay(t.ops).ok
    requires t == s.(mech := Some(NoiseM(n)), ops := t.ops) && v.tally(t.ops) == v.tally(s.ops) && v.lay(t.ops).secured == v.lay(s.ops).secured
    requires Over(n) && n.suite == k.suite && n.state.None? && |v.lay(s.ops).tokens| == 1
    requires k.isServer ==>
               && |k.peer| == 2 && k.peer[1].data == token && v.lay(t.ops).tokens == v.lay(s.ops).tokens
               && n.transport == Some(Weave(true, v.lay(s.ops).tokens, k.peer) + [token])
    requires !k.isServer ==>
               && |k.peer| == 1 && k.peer[0].data == token && v.lay(t.ops).tokens == v.lay(s.ops).tokens + [Msg(answer, false, true)]
               && n.transport == Some(Weave(false, v.lay(s.ops).tokens, k.peer) + [token] + [answer])
    ensures good(FlowAcc(v, AfterTokens(t, NoiseM(n), true)))
  {
    LastAnswerGood(v, k, good, s, n, t);
    ScriptWoven(k.isServer, v.lay(s.ops).tokens, k.peer, token, answer);
    LeaveGood(v, k, good, t, n);
  }

  lemma GotAnswered(v: View, k: Case, good: Account -> bool, s: H, n: NoiseMech, token: Octets, r: Octets, peer: Layout, got: nat)
    requires Views(v) && Laws(k, good) && Fits(k, s, peer) && Took(v.lay, s, n, r, peer) && s.mech == Some(NoiseM(n)) && good(Acc(v, s))
    requires got == GotWith(s.isServer, |v.lay(s.ops).tokens|) && token == peer.tokens[got].data
    requires !ProcessNoise(n, token).action.Refused?
    ensures var q := ProcessNoise(n, token).mech;
            var a := AskToken(s.(mech := Some(NoiseM(q))), NoiseM(q));
            if !a.ok then Halt(Acc(v, a.s)) == Halt(Acc(v, s))
            else good(FlowAcc(v, AfterTokens(a.s, a.mech, true)))
  {
    var q := ProcessNoise(n, token).mech;
    var t := s.(mech := Some(NoiseM(q)));
    TookAnswers(v.lay, s, n, token, r, peer);
    AskAcc(v, t, q);
    GiveWeaves(n, s.isServer, got, token);
    OverStateless(n, s.isServer, got, token);
    TranscriptGood(v, k, good, s, n);
    var a := AskToken(t, NoiseM(q));
    if !a.ok {
      RefusedAcc(v, s, a.mech, a.s);
    } else if s.isServer && got == 0 {
      FirstAnswerGood(v, k, good, s, a.mech.noise, token, a.s);
      assert AfterTokens(a.s, a.mech, true) == Next(a.s, true);
    } else {
      var p := ProduceNoise(q);
      LastLeaves(v, k, good, s, a.mech.noise, token, if p.token.Some? then p.token.value else [], a.s);
    }
  }

  lemma TranscriptGood(v: View, k: Case, good: Account -> bool, s: H, n: NoiseMech)
    requires Laws(k, good) && good(Acc(v, s)) && s.framer.Plain? && s.phase == SecurityExchange && s.mech == Some(NoiseM(n)) && n.state.Some?
    ensures n.state.value.transcript == Weave(k.isServer, v.lay(s.ops).tokens, k.peer)
  {
    assert PlainGood(k, Acc(v, s));
  }

  lemma GotTokenGood(v: View, k: Case, good: Account -> bool, s: H, n: NoiseMech, token: Octets, r: Octets, peer: Layout, got: nat)
    requires Views(v) && Laws(k, good) && Fits(k, s, peer) && Took(v.lay, s, n, r, peer) && s.mech == Some(NoiseM(n)) && good(Acc(v, s))
    requires got == GotWith(s.isServer, |v.lay(s.ops).tokens|) && token == peer.tokens[got].data
    ensures good(FlowAcc(v, GotToken(s, ProcessToken(NoiseM(n), token))))
  {
    UseHalt(k, good, Acc(v, s));
    var q := ProcessNoise(n, token);
    if q.action.Refused? {
      RefusedAcc(v, s, NoiseM(q.mech), s.(mech := Some(NoiseM(q.mech))));
    } else {
      GotAnswered(v, k, good, s, n, token, r, peer, got);
    }
  }

  lemma PlainTakeAcc(v: View, k: Case, good: Account -> bool, s: H, parser: ParserState, rest: Octets)
    requires Laws(k, good) && good(Acc(v, s)) && s.framer.Plain? && |v.lay(s.ops).tokens| <= Writes(k.isServer)
    ensures good(Acc(v, s.(framer := Plain(parser), acc := rest)))
  {
    UsePlain(k, good, Acc(v, s), Acc(v, s.(framer := Plain(parser), acc := rest)));
  }

  lemma OnTokenGood(v: View, k: Case, good: Account -> bool, s: H, acted: bool, o: ParseOut, r: Octets, peer: Layout)
    requires Views(v) && Laws(k, good) && Fits(k, s, peer) && Exchanging(v.lay, s, r, peer) && Heard(r, peer, !s.isServer) && good(Acc(v, s))
    requires !s.isServer ==> |v.lay(s.ops).tokens| == 1
    requires o == Parse(s.framer.parser, s.cfg.maxMsgSize, s.acc)
    ensures var t := s.(framer := Plain(o.state), acc := o.rest);
            good(FlowAcc(v, OnToken(t, s.mech.value, acted, OfDecoded(o.res))))
  {
    var t := s.(framer := Plain(o.state), acc := o.rest);
    PlainTakeAcc(v, k, good, s, o.state, o.rest);
    if o.res.NeedMore? {
      StillExchanging(v.lay, s, o, r, peer);
      MidwayAcc(v, t, acted, r, peer);
    } else if o.res.Got? && o.res.msg.command {
      NowTook(v.lay, s, o, r, peer);
      GotTokenGood(v, k, good, t, s.mech.value.noise, o.res.msg.data, r, peer, GotWith(s.isServer, |v.lay(s.ops).tokens|));
    } else {
      UseHalt(k, good, Acc(v, t));
      AbortAcc(v, t, SecurityError);
    }
  }

  lemma ReadTokenGood(v: View, k: Case, good: Account -> bool, s: H, acted: bool, r: Octets, peer: Layout)
    requires Views(v) && Laws(k, good) && Fits(k, s, peer) && Exchanging(v.lay, s, r, peer) && Heard(r, peer, !s.isServer) && good(Acc(v, s))
    requires !s.isServer ==> |v.lay(s.ops).tokens| == 1
    ensures good(FlowAcc(v, ReadToken(s, s.mech.value, acted)))
  {
    if s.acc == [] {
      MidwayAcc(v, s, acted, r, peer);
    } else {
      PlainTake(s, s.framer.parser);
      OnTokenGood(v, k, good, s, acted, Parse(s.framer.parser, s.cfg.maxMsgSize, s.acc), r, peer);
    }
  }

  lemma SecurityRoundGood(v: View, k: Case, good: Account -> bool, s: H, r: Octets, peer: Layout)
    requires Views(v) && Laws(k, good) && Fits(k, s, peer) && Exchanging(v.lay, s, r, peer) && Heard(r, peer, !s.isServer) && good(Acc(v, s))
    ensures good(FlowAcc(v, ArmSecurity(s)))
  {
    AskSecure(v.lay, s, r, peer);
    AskRoundGood(v, k, good, s, r, peer);
    var a := AskToken(s, s.mech.value);
    ReadTokenGood(v, k, good, a.s, a.sent, r, peer);
  }
}
