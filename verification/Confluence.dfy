/** NULL and ZMTP/2.0 sessions: where a connection ends up depends only on the octets received and
    the number of sends acknowledged, not on how either was cut up or interleaved. */
module Confluence {
  import opened Bytes
  import opened Frames
  import opened Framers
  import opened Commands
  import opened Greeting
  import opened Mechanisms
  import opened Handler
  import opened HandlerSteps
  import opened HandlerRuns
  import opened HandlerV2
  import opened Interleaving

  function Feed(s: H, b: Octets): H { s.(acc := s.acc + b) }

  /** The peer's version octet, if it is there, says ZMTP/2.0. */
  predicate SpeaksV2(octets: Octets) {
    |octets| > 10 ==> octets[10] == V2_REVISION
  }

  /** A session that runs, or can only come to run, the NULL mechanism or ZMTP/2.0. */
  predicate Simple(s: H) {
    || (NullOnly(s.cfg.security) && (s.phase == SecurityExchange ==> s.mech == Some(NullMech)))
    || V2Phase(s.phase)
    || (Early(s.phase) && SpeaksV2(s.greeting + s.acc))
  }

  lemma FeedSimple(s: H, b: Octets)
    requires Simple(Feed(s, b))
    ensures Simple(s)
  {
  }

  // --- One round of the loop and octets that come later ---

  /** What the round on `s` says about the round on `s` with more octets: a decision taken stands
      and leaves the new octets alone, and a wait is resumed as if there had been none. */
  ghost predicate Commutes(s: H, b: Octets, f: Flow, g: Flow) {
    match f
    case Next(u, progress) => progress && g == Next(Feed(u, b), true)
    case Fail(u, e) => g == Fail(Feed(u, b), e)
    case Stop(u) => u.phase == s.phase && g == Arm(Feed(u, b))
  }

  lemma ToErrorFeeds(s: H, e: ErrorKind, b: Octets)
    ensures ToError(Feed(s, b), e) == Feed(ToError(s, e), b)
  {
  }

  /** Moving octets when more have come is moving some of those at hand and then the rest. */
  lemma MoveInTwo(g: Octets, a: Octets, b: Octets, i: nat, j: nat)
    requires i <= |a| && j <= |a[i..] + b|
    requires i == |a| || j == 0
    ensures g + (a + b)[..i + j] == (g + a[..i]) + (a[i..] + b)[..j]
    ensures (a + b)[i + j..] == (a[i..] + b)[j..]
  {
  }

  /** The greeting buffer goes on being filled where it was left; a full one stays as it is. */
  lemma FillFeeds(s: H, b: Octets, target: nat)
    ensures var f := Fill(s, target);
            && Fill(Feed(f, b), target) == Fill(Feed(s, b), target)
            && (|f.greeting| >= target ==> Fill(Feed(f, b), target) == Feed(f, b))
  {
    var i := Missing(|s.greeting|, |s.acc|, target);
    var f := Fill(s, target);
    var j := Missing(|f.greeting|, |f.acc + b|, target);
    assert Missing(|s.greeting|, |s.acc + b|, target) == i + j;
    MoveInTwo(s.greeting, s.acc, b, i, j);
  }

  lemma SamePhaseCommutes(s: H, t: H, b: Octets, f: Flow, g: Flow)
    requires s.phase == t.phase && Commutes(t, b, f, g)
    ensures Commutes(s, b, f, g)
  {
  }

  lemma OnRevisionFeeds(s: H, revision: Option<Byte>, b: Octets)
    requires s.phase == WaitPeerRevision
    ensures Commutes(s, b, OnRevision(s, revision), OnRevision(Feed(s, b), revision))
  {
    ToErrorFeeds(s, ProtocolViolation, b);
  }

  lemma ReadRevisionFeeds(s: H, b: Octets)
    requires s.phase == WaitPeerRevision && |s.greeting| >= PEEK_LENGTH
    ensures Commutes(s, b, ReadRevision(s), ReadRevision(Feed(s, b)))
  {
    OnRevisionFeeds(s, PeekRevision(s.greeting[..PEEK_LENGTH]), b);
  }

  lemma PeerRevisionWaits(s: H, b: Octets)
    requires s.phase == WaitPeerRevision && |s.greeting| < PEEK_LENGTH
    ensures Commutes(s, b, ReadRevision(s), ArmPeerRevision(Feed(s, b)))
  {
  }

  lemma PeerRevisionFeeds(s: H, b: Octets)
    requires s.phase == WaitPeerRevision
    ensures Commutes(s, b, ArmPeerRevision(s), ArmPeerRevision(Feed(s, b)))
  {
    FillFeeds(s, b, PEEK_LENGTH);
    FillOnlyMoves(s, PEEK_LENGTH);
    var f := Fill(s, PEEK_LENGTH);
    if |f.greeting| >= PEEK_LENGTH {
      ReadRevisionFeeds(f, b);
    } else {
      PeerRevisionWaits(f, b);
    }
    SamePhaseCommutes(s, f, b, ReadRevision(f), ArmPeerRevision(Feed(s, b)));
  }

  lemma OnGreetingFeeds(s: H, g: Option<V3Greeting>, b: Octets)
    requires s.phase == WaitV3Greeting
    ensures Commutes(s, b, OnGreeting(s, g), OnGreeting(Feed(s, b), g))
  {
    ToErrorFeeds(s, ProtocolViolation, b);
    ToErrorFeeds(s, SecurityError, b);
  }

  lemma ReadGreetingFeeds(s: H, b: Octets)
    requires s.phase == WaitV3Greeting && |s.greeting| >= GREETING_LENGTH
    ensures Commutes(s, b, ReadGreeting(s), ReadGreeting(Feed(s, b)))
  {
    OnGreetingFeeds(s.(greeting := s.greeting[GREETING_LENGTH..]), DecodeV3(s.greeting), b);
  }

  lemma V3GreetingWaits(s: H, b: Octets)
    requires s.phase == WaitV3Greeting && |s.greeting| < GREETING_LENGTH
    ensures Commutes(s, b, ReadGreeting(s), ArmV3Greeting(Feed(s, b)))
  {
  }

  lemma V3GreetingFeeds(s: H, b: Octets)
    requires s.phase == WaitV3Greeting
    ensures Commutes(s, b, ArmV3Greeting(s), ArmV3Greeting(Feed(s, b)))
  {
    FillFeeds(s, b, GREETING_LENGTH);
    FillOnlyMoves(s, GREETING_LENGTH);
    var f := Fill(s, GREETING_LENGTH);
    if |f.greeting| >= GREETING_LENGTH {
      ReadGreetingFeeds(f, b);
    } else {
      V3GreetingWaits(f, b);
    }
    SamePhaseCommutes(s, f, b, ReadGreeting(f), ArmV3Greeting(Feed(s, b)));
  }

  lemma ReadV2GreetingFeeds(s: H, b: Octets)
    requires s.phase == V2GreetingExchange && |s.greeting| >= V2_GREETING_LENGTH
    ensures Commutes(s, b, ReadV2Greeting(s), ReadV2Greeting(Feed(s, b)))
  {
    ToErrorFeeds(s.(greeting := s.greeting[V2_GREETING_LENGTH..]), ProtocolViolation, b);
  }

  lemma V2GreetingWaits(s: H, b: Octets)
    requires s.phase == V2GreetingExchange && |s.greeting| < V2_GREETING_LENGTH
    ensures Commutes(s, b, ReadV2Greeting(s), ArmV2Greeting(Feed(s, b)))
  {
  }

  lemma V2GreetingFeeds(s: H, b: Octets)
    requires s.phase == V2GreetingExchange
    ensures Commutes(s, b, ArmV2Greeting(s), ArmV2Greeting(Feed(s, b)))
  {
    FillFeeds(s, b, V2_GREETING_LENGTH);
    FillOnlyMoves(s, V2_GREETING_LENGTH);
    var f := Fill(s, V2_GREETING_LENGTH);
    if |f.greeting| >= V2_GREETING_LENGTH {
      ReadV2GreetingFeeds(f, b);
    } else {
      V2GreetingWaits(f, b);
    }
    SamePhaseCommutes(s, f, b, ReadV2Greeting(f), ArmV2Greeting(Feed(s, b)));
  }

  lemma IdentityTaken(s: H, m: Msg, b: Octets)
    ensures Commutes(s, b, EnterData(if m.data == [] then s else s.(idReady := Some(m.data))),
                     EnterData(if m.data == [] then Feed(s, b) else Feed(s, b).(idReady := Some(m.data))))
  {
    EnterDataFeeds(if m.data == [] then s else s.(idReady := Some(m.data)), b);
  }

  lemma OnIdentityFeeds(s: H, res: ReadRes, b: Octets)
    requires s.phase == V2WaitIdentity && !res.Nothing?
    ensures Commutes(s, b, OnIdentity(s, res), OnIdentity(Feed(s, b), res))
  {
    ToErrorFeeds(s, ProtocolViolation, b);
    if res.Frame? {
      IdentityTaken(s, res.msg, b);
    }
  }

  lemma SendReadyFeeds(s: H, next: Phase, b: Octets)
    ensures Commutes(s, b, SendReady(s, next), SendReady(Feed(s, b), next))
  {
  }

  lemma EnterDataFeeds(s: H, b: Octets)
    ensures Commutes(s, b, EnterData(s), EnterData(Feed(s, b)))
  {
  }

  lemma OnReadyFeeds(s: H, c: Option<Command>, b: Octets)
    ensures Commutes(s, b, OnReady(s, c), OnReady(Feed(s, b), c))
  {
    ToErrorFeeds(s, ProtocolViolation, b);
    if c.Some? && c.value.Ready? {
      var t := WithIdentity(s, c.value.props);
      assert WithIdentity(Feed(s, b), c.value.props) == Feed(t, b);
      if s.phase == ReadyClientWaitServer {
        EnterDataFeeds(t, b);
      } else {
        SendReadyFeeds(t, ReadyServerSend, b);
      }
    }
  }

  /** A read with an answer keeps it; one without starts again where it stopped. */
  lemma TakeFeeds(s: H, b: Octets)
    ensures var o := TryRead(s.framer, s.cfg.maxMsgSize, s.acc);
            var p := TryRead(s.framer, s.cfg.maxMsgSize, s.acc + b);
            if o.res.Nothing? then p == TryRead(o.framer, s.cfg.maxMsgSize, o.net + b)
            else p.res == o.res && Take(Feed(s, b), p) == Feed(Take(s, o), b)
  {
    TryReadResumes(s.framer, s.cfg.maxMsgSize, s.acc, b);
  }

  lemma IdentityFeeds(s: H, b: Octets)
    requires s.phase == V2WaitIdentity && b != []
    ensures Commutes(s, b, ArmV2Identity(s), ArmV2Identity(Feed(s, b)))
  {
    if s.acc != [] {
      TakeFeeds(s, b);
      var o := TryRead(s.framer, s.cfg.maxMsgSize, s.acc);
      if !o.res.Nothing? {
        OnIdentityFeeds(Take(s, o), o.res, b);
      }
    }
  }

  lemma OnReadyFrameFeeds(s: H, res: ReadRes, b: Octets)
    requires !res.Nothing?
    ensures Commutes(s, b, OnReadyFrame(s, res), OnReadyFrame(Feed(s, b), res))
  {
    ToErrorFeeds(s, ProtocolViolation, b);
    if res.Frame? {
      OnReadyFeeds(s, CommandOf(res.msg), b);
    }
  }

  lemma ReadyFeeds(s: H, b: Octets)
    requires s.phase == ReadyClientWaitServer || s.phase == ReadyServerWaitClient
    requires b != []
    ensures Commutes(s, b, ArmReady(s), ArmReady(Feed(s, b)))
  {
    if s.acc != [] {
      TakeFeeds(s, b);
      var o := TryRead(s.framer, s.cfg.maxMsgSize, s.acc);
      if !o.res.Nothing? {
        OnReadyFrameFeeds(Take(s, o), o.res, b);
      }
    }
  }

  lemma NullFeeds(s: H, b: Octets)
    requires s.phase == SecurityExchange && s.mech == Some(NullMech)
    ensures Commutes(s, b, ArmSecurity(s), ArmSecurity(Feed(s, b)))
  {
    var t := s.(mech := None, framer := Plain(ReadHeader), idSecurity := Or(s.idSecurity, None), phase := ReadyClientSend);
    SendReadyFeeds(t, ReadyClientSend, b);
  }

  lemma ArmFeeds(s: H, b: Octets)
    requires Simple(Feed(s, b)) && b != [] && s.phase != DataPhase
    ensures Commutes(s, b, Arm(s), Arm(Feed(s, b)))
  {
    match s.phase
    case Initial => ToErrorFeeds(s, InvalidState, b);
    case WaitPeerRevision => PeerRevisionFeeds(s, b);
    case WaitV3Greeting => V3GreetingFeeds(s, b);
    case V2GreetingExchange => V2GreetingFeeds(s, b);
    case V2WaitIdentity => IdentityFeeds(s, b);
    case ReadyServerWaitClient => ReadyFeeds(s, b);
    case ReadyClientWaitServer => ReadyFeeds(s, b);
    case SecurityExchange => NullFeeds(s, b);
    case _ =>
  }

  // --- The data phase ---

  lemma OnCommandFeeds(s: H, c: Option<Command>, b: Octets)
    ensures Commutes(s, b, OnCommand(s, c), OnCommand(Feed(s, b), c))
  {
    ToErrorFeeds(s, ProtocolViolation, b);
  }

  lemma HandleFrameFeeds(s: H, m: Msg, b: Octets)
    ensures Commutes(s, b, HandleFrame(s, m), HandleFrame(Feed(s, b), m))
  {
    ToErrorFeeds(s, ProtocolViolation, b);
    ToErrorFeeds(TrySend(s, Data(m)).s, Internal, b);
    OnCommandFeeds(s, CommandOf(m), b);
  }

  /** What a flow comes to, whether or not it counts as progress. */
  function Ended(f: Flow): Done {
    if f.Fail? then Done(f.s, Some(f.error)) else Done(f.s, None)
  }

  lemma FlagIrrelevant(s: H, p: bool, q: bool)
    ensures Ended(DataLoop(s, p)) == Ended(DataLoop(s, q))
  {
  }

  /** A pause in the reading, with nothing complete at hand, goes unnoticed. */
  lemma PauseFeeds(s: H, progress: bool, b: Octets)
    requires TryRead(s.framer, s.cfg.maxMsgSize, s.acc).res.Nothing?
    ensures DataLoop(Feed(s, b), progress) == DataLoop(Feed(DataLoop(s, progress).s, b), progress)
  {
    TakeFeeds(s, b);
    var t := Take(s, TryRead(s.framer, s.cfg.maxMsgSize, s.acc));
    var p := TryRead(s.framer, s.cfg.maxMsgSize, s.acc + b);
    assert Take(Feed(s, b), p) == Take(Feed(t, b), p);
  }

  /** One frame, and the rest of the loop. */
  lemma FrameFeeds(s: H, progress: bool, b: Octets, f: Flow)
    requires TryRead(s.framer, s.cfg.maxMsgSize, s.acc).res.Frame?
    requires var o := TryRead(s.framer, s.cfg.maxMsgSize, s.acc); f == HandleFrame(Take(s, o), o.res.msg)
    ensures match f
            case Next(u, _) => DataLoop(s, progress) == DataLoop(u, true) && DataLoop(Feed(s, b), progress) == DataLoop(Feed(u, b), true)
            case Fail(u, e) => DataLoop(s, progress) == f && DataLoop(Feed(s, b), progress) == Fail(Feed(u, b), e)
            case Stop(u) => true
  {
    TakeFeeds(s, b);
    var o := TryRead(s.framer, s.cfg.maxMsgSize, s.acc);
    HandleFrameFeeds(Take(s, o), o.res.msg, b);
  }

  lemma HandleFrameNeverStops(s: H, m: Msg)
    ensures !HandleFrame(s, m).Stop?
  {
  }

  lemma {:induction false} DataLoopFeeds(s: H, progress: bool, b: Octets)
    ensures var f := DataLoop(s, progress);
            Ended(DataLoop(Feed(s, b), progress)) ==
              if f.Fail? then Done(Feed(f.s, b), Some(f.error)) else Ended(DataLoop(Feed(f.s, b), progress))
    decreases |s.acc|, DecryptedLeft(s.framer), BodyPending(s.framer)
  {
    var o := TryRead(s.framer, s.cfg.maxMsgSize, s.acc);
    var t := Take(s, o);
    match o.res
    case Nothing => PauseFeeds(s, progress, b);
    case Failed =>
      TakeFeeds(s, b);
      ToErrorFeeds(t, ProtocolViolation, b);
    case Frame(m) =>
      var f := HandleFrame(t, m);
      FrameFeeds(s, progress, b, f);
      HandleFrameNeverStops(t, m);
      if f.Next? {
        TryReadConsumes(s.framer, s.cfg.maxMsgSize, s.acc);
        HandleFrameKeeps(t, m);
        DataLoopFeeds(f.s, true, b);
        FlagIrrelevant(Feed(DataLoop(f.s, true).s, b), true, progress);
      }
  }

  /** Reading again when everything was read changes nothing. */
  lemma {:induction false} DataLoopRests(s: H, progress: bool, q: bool)
    requires s.phase == DataPhase
    ensures var f := DataLoop(s, progress); f.Next? ==> DataLoop(f.s, q) == Next(f.s, q) && f.s.phase == DataPhase
    decreases |s.acc|, DecryptedLeft(s.framer), BodyPending(s.framer)
  {
    TryReadConsumes(s.framer, s.cfg.maxMsgSize, s.acc);
    var o := TryRead(s.framer, s.cfg.maxMsgSize, s.acc);
    var t := Take(s, o);
    if o.res.Nothing? {
      TryReadResumes(s.framer, s.cfg.maxMsgSize, s.acc, []);
      assert s.acc + [] == s.acc && o.net + [] == o.net;
    } else if o.res.Frame? {
      HandleFrameKeeps(t, o.res.msg);
      HandleFrameOk(t, o.res.msg);
      var f := HandleFrame(t, o.res.msg);
      if f.Next? {
        DataLoopRests(f.s, true, q);
      }
    }
  }

  lemma DataSettles(s: H, t: Clock)
    requires s.phase == DataPhase
    ensures ProcessBuffered(s, t) == Ended(DataLoop(s, false))
  {
    DataLoopRests(s, false, false);
    ArmShrinks(s);
    var f := DataLoop(s, false);
    if f.Next? {
      ArmShrinks(f.s);
    }
  }

  lemma FinalFeeds(d: Done, b: Octets, t: Clock)
    requires d.error.Some?
    ensures Process(Feed(Settle(d), b), t) == Settle(Done(Feed(d.s, b), d.error))
  {
    ToErrorFeeds(d.s, d.error.value, b);
  }

  /** Where the data phase comes to rest. */
  function DataEnd(s: H): H { Settle(Ended(DataLoop(s, false))) }

  lemma ProcessData(s: H, t: Clock)
    requires s.phase == DataPhase
    ensures Process(s, t) == DataEnd(s)
  {
    DataSettles(s, t);
  }

  lemma FinalStays(s: H, t: Clock)
    requires Final(s.phase)
    ensures Process(s, t) == s
  {
  }

  lemma DataEndFeeds(s: H, b: Octets)
    requires s.phase == DataPhase
    ensures var u := DataEnd(s);
            if DataLoop(s, false).Fail? then Final(u.phase) && DataEnd(Feed(s, b)) == Feed(u, b)
            else u.phase == DataPhase && DataEnd(Feed(s, b)) == DataEnd(Feed(u, b))
  {
    DataLoopFeeds(s, false, b);
    DataLoopRests(s, false, false);
    var f := DataLoop(s, false);
    if f.Fail? {
      ToErrorFeeds(f.s, f.error, b);
    } else {
      DataLoopEnds(s, false);
    }
  }

  lemma {:induction false} DataLoopEnds(s: H, progress: bool)
    ensures !DataLoop(s, progress).Stop?
    decreases |s.acc|, DecryptedLeft(s.framer), BodyPending(s.framer)
  {
    TryReadConsumes(s.framer, s.cfg.maxMsgSize, s.acc);
    var o := TryRead(s.framer, s.cfg.maxMsgSize, s.acc);
    if o.res.Frame? {
      HandleFrameKeeps(Take(s, o), o.res.msg);
      var f := HandleFrame(Take(s, o), o.res.msg);
      if f.Next? {
        DataLoopEnds(f.s, true);
      }
    }
  }

  lemma DataMerges(s: H, b: Octets)
    requires s.phase == DataPhase
    ensures Process(Feed(Process(s, Never), b), Never) == Process(Feed(s, b), Never)
  {
    ProcessData(s, Never);
    ProcessData(Feed(s, b), Never);
    DataEndFeeds(s, b);
    var u := DataEnd(s);
    if DataLoop(s, false).Fail? {
      FinalStays(Feed(u, b), Never);
    } else {
      ProcessData(Feed(u, b), Never);
    }
  }

  // --- Processing twice is processing once ---

  /** Outside the data phase a round that goes on has made progress. */
  lemma ArmProgress(s: H)
    requires Simple(s) && s.phase != DataPhase
    ensures Arm(s).Next? ==> Arm(s).progress
  {
    FeedRevision(s);
    ArmFeeds(s, [V2_REVISION]);
  }

  lemma FeedRevision(s: H)
    requires Simple(s)
    ensures Simple(Feed(s, [V2_REVISION]))
  {
  }

  /** Phases from which only the phase tells what is simple afterwards. */
  lemma FollowsSimple(s: H, u: H, b: Octets)
    requires Simple(Feed(s, b)) && Evolves(s, u) && s.phase != DataPhase
    requires s.phase != WaitPeerRevision && s.phase != WaitV3Greeting && s.phase != SecurityExchange
    requires u.phase == s.phase ==> !Early(s.phase)
    ensures Simple(Feed(u, b))
  {
  }

  lemma ArmSimple(s: H, b: Octets)
    requires Simple(Feed(s, b)) && s.phase != DataPhase
    ensures Arm(s).Next? ==> Simple(Feed(Arm(s).s, b))
  {
    FeedSimple(s, b);
    ArmOk(s);
    if Arm(s).Next? {
      if s.phase == WaitPeerRevision {
        PeerRevisionSimple(s);
      } else if s.phase == WaitV3Greeting {
        V3GreetingSimple(s);
      } else if s.phase == SecurityExchange {
        NullLeaves(s);
      } else {
        FollowsSimple(s, Arm(s).s, b);
      }
    }
  }

  lemma NullLeaves(s: H)
    requires s.phase == SecurityExchange && s.mech == Some(NullMech)
    ensures ArmSecurity(s).s.phase != SecurityExchange && !ArmSecurity(s).Stop?
  {
  }

  lemma PeerRevisionSimple(s: H)
    requires Simple(s) && s.phase == WaitPeerRevision
    ensures ArmPeerRevision(s).Next? ==> NullOnly(s.cfg.security) || ArmPeerRevision(s).s.phase == SendV2Tail
  {
    var f := Fill(s, PEEK_LENGTH);
    if |f.greeting| >= PEEK_LENGTH {
      assert f.greeting[..PEEK_LENGTH][10] == (s.greeting + s.acc)[10];
    }
  }

  lemma V3GreetingSimple(s: H)
    requires Simple(s) && s.phase == WaitV3Greeting
    ensures ArmV3Greeting(s).Next? ==> ArmV3Greeting(s).s.mech == Some(NullMech)
  {
    var f := Fill(s, GREETING_LENGTH);
    if |f.greeting| >= GREETING_LENGTH {
      var g := DecodeV3(f.greeting);
      if g.Some? {
        assert NullOnly(s.cfg.security);
      }
    }
  }

  /** Octets that come after processing give what they would have given before it. */
  lemma {:induction false} Merges(s: H, b: Octets)
    requires Simple(Feed(s, b)) && b != []
    ensures Process(Feed(Process(s, Never), b), Never) == Process(Feed(s, b), Never)
    decreases RankLeft(s), TokensLeft(s), |s.acc|, DecryptedLeft(s.framer), BodyPending(s.framer)
  {
    if s.phase == DataPhase {
      DataMerges(s, b);
    } else {
      ArmFeeds(s, b);
      ArmSimple(s, b);
      ProcessStep(s, Never);
      ProcessStep(Feed(s, b), Never);
      var f := Arm(s);
      match f
      case Next(u, _) =>
        ArmShrinks(s);
        Merges(u, b);
      case Fail(u, e) => FinalFeeds(Done(u, Some(e)), b, Never);
      case Stop(u) =>
        ArmProgress(Feed(s, b));
        ProcessStep(Feed(u, b), Never);
    }
  }

  lemma FinalSimple(s: H, b: Octets)
    requires s.phase == DataPhase || Rank(s.phase) > 8
    ensures Simple(Feed(s, b))
  {
  }

  lemma FailFinal(f: Flow, b: Octets)
    requires f.Fail?
    ensures Simple(Feed(AfterRound(f), b))
  {
  }

  lemma FollowsData(p: Phase)
    requires Follows(DataPhase, p)
    ensures p == DataPhase || p == ErrorPhase
  {
  }

  lemma DataStays(s: H)
    requires s.phase == DataPhase
    ensures var p := DataLoop(s, false).s.phase; p == DataPhase || p == ErrorPhase
  {
    DataLoopOk(s, false);
    FollowsData(DataLoop(s, false).s.phase);
  }

  lemma DataKeepsSimple(u: H, b: Octets)
    requires u.phase == DataPhase || u.phase == ErrorPhase
    ensures Simple(Feed(u, b))
  {
  }

  lemma SettledSimple(f: Flow, b: Octets)
    requires f.Fail? || Simple(Feed(f.s, b))
    ensures Simple(Feed(AfterRound(f), b))
  {
    if f.Fail? {
      FailFinal(f, b);
    }
  }

  lemma DataRoundSimple(s: H, b: Octets)
    requires s.phase == DataPhase
    ensures Simple(Feed(Arm(s).s, b))
  {
    DataStays(s);
    DataKeepsSimple(DataLoop(s, false).s, b);
  }

  lemma RoundKeepsSimple(s: H, b: Octets)
    requires Simple(Feed(s, b))
    ensures Simple(Feed(AfterRound(Arm(s)), b))
  {
    if s.phase == DataPhase {
      DataRoundSimple(s, b);
    } else if Arm(s).Next? {
      ArmSimple(s, b);
    } else if Arm(s).Stop? {
      StopSimple(s, b);
    }
    SettledSimple(Arm(s), b);
  }

  lemma ProcessSimple(s: H, b: Octets)
    requires Simple(Feed(s, b))
    ensures Simple(Feed(Process(s, Never), b))
  {
    var inv := (x: H) => Simple(Feed(x, b));
    forall u: H | inv(u) ensures inv(AfterRound(Arm(u))) {
      RoundKeepsSimple(u, b);
    }
    ProcessInduct(inv, s);
  }

  lemma StopSimple(s: H, b: Octets)
    requires Simple(Feed(s, b)) && Arm(s).Stop? && s.phase != DataPhase
    ensures Simple(Feed(Arm(s).s, b))
  {
    FeedSimple(s, b);
    if s.phase == WaitPeerRevision {
      FillSimple(s, b);
    } else if s.phase == SecurityExchange {
      NullLeaves(s);
    } else {
      StopStays(s);
    }
  }

  lemma Shift(g: Octets, a: Octets, b: Octets, k: nat)
    requires k <= |a|
    ensures (g + a[..k]) + (a[k..] + b) == g + (a + b)
  {
  }

  lemma FillSimple(s: H, b: Octets)
    requires Simple(Feed(s, b)) && s.phase == WaitPeerRevision
    ensures Simple(Feed(Fill(s, PEEK_LENGTH), b))
  {
    Shift(s.greeting, s.acc, b, Missing(|s.greeting|, |s.acc|, PEEK_LENGTH));
  }

  /** A round that stops outside the greeting and the security exchange has only read. */
  lemma StopStays(s: H)
    requires Arm(s).Stop? && s.phase != DataPhase && s.phase != WaitPeerRevision && s.phase != SecurityExchange
    ensures var u := Arm(s).s;
            u.phase == s.phase && u.cfg == s.cfg && (Early(s.phase) ==> u == s)
  {
    ArmOk(s);
  }

  // --- Acknowledgements ---

  /** A handshake send is outstanding. */
  predicate Sending(p: Phase) {
    || p == SendSignature || p == SendV3Tail || p == SendV2Tail || p == V2SendIdentity
    || p == ReadyClientSend || p == ReadyServerSend
  }

  /** Nothing is outstanding; the peer has to speak. */
  predicate Waiting(p: Phase) {
    || p == WaitPeerRevision || p == WaitV3Greeting || p == V2GreetingExchange || p == V2WaitIdentity
    || p == SecurityExchange || p == ReadyClientWaitServer || p == ReadyServerWaitClient
  }

  function Ack(s: H): H { SendCompleted(s, Acked, Never) }

  function Receive(s: H, b: Octets): H { ReadData(s, b, Never) }

  /** The application has nothing to send and no heartbeat is under way. */
  predicate Idle(s: H) { s.queue == [] && !s.pingSent }

  lemma ResumeFeeds(s: H, b: Octets)
    requires Simple(Feed(s, b)) && b != []
    ensures Receive(Resume(s, Never), b) == Process(Feed(s, b), Never)
  {
    if s.greeting != [] || s.acc != [] {
      Merges(s, b);
    }
  }

  lemma SendingFeeds(s: H, b: Octets)
    requires Sending(s.phase) && b != []
    ensures Receive(s, b) == Feed(s, b)
  {
  }

  lemma AnnouncedFeeds(s: H, b: Octets)
    requires s.phase == DataPhase && b != []
    ensures Receive(Announced(Announce(s), Never), b) == Announced(Announce(Feed(s, b)), Never)
  {
    var a := Announce(s);
    assert Announce(Feed(s, b)) == Tried(Feed(a.s, b), a.ok);
    if a.ok {
      ResumeFeeds(a.s, b);
    } else {
      ToErrorFeeds(a.s, Internal, b);
      FinalStays(Feed(ToError(a.s, Internal), b), Never);
    }
  }

  lemma AckSendingFeeds(s: H, b: Octets)
    requires Sending(s.phase) && s.phase != ReadyServerSend && Simple(Feed(s, b)) && b != []
    ensures Receive(Ack(s), b) == Ack(Feed(s, b))
  {
    ResumeFeeds(s.(phase := AckPhase(s.phase)), b);
  }

  /** With nothing queued, an acknowledgement outside the handshake changes nothing. */
  lemma LateAck(s: H)
    requires Idle(s) && !Sending(s.phase)
    ensures Ack(s) == s
  {
  }

  lemma SendingSwaps(s: H, b: Octets)
    requires Simple(Feed(s, b)) && b != [] && Sending(s.phase)
    ensures Receive(Ack(s), b) == Ack(Receive(s, b))
    ensures Receive(s, b).phase == s.phase
  {
    SendingFeeds(s, b);
    if s.phase == ReadyServerSend {
      AnnouncedFeeds(s.(phase := DataPhase), b);
    } else {
      AckSendingFeeds(s, b);
    }
  }

  lemma RestingStays(s: H, b: Octets)
    requires Idle(s) && b != [] && !Sending(s.phase) && !Waiting(s.phase) && s.phase != Initial
    ensures var t := Receive(s, b); Idle(t) && !Sending(t.phase) && !Waiting(t.phase)
  {
    ReceiveProcesses(s, b);
    ProcessIdle(Feed(s, b));
    ProcessOk(Feed(s, b), Never);
  }

  /** An acknowledgement may as well come after the octets that followed it. */
  lemma AckSwaps(s: H, b: Octets)
    requires Simple(Feed(s, b)) && Idle(s) && b != [] && !Waiting(s.phase) && s.phase != Initial
    ensures Receive(Ack(s), b) == Ack(Receive(s, b)) && !Waiting(Receive(s, b).phase)
  {
    if Sending(s.phase) {
      SendingSwaps(s, b);
    } else {
      LateAck(s);
      RestingStays(s, b);
      LateAck(Receive(s, b));
    }
  }

  lemma ProcessIdle(s: H)
    requires Idle(s)
    ensures Idle(Process(s, Never))
  {
    var inv := (x: H) => Idle(x);
    forall u: H | inv(u) ensures inv(AfterRound(Arm(u))) {
      RoundIdle(u);
    }
    ProcessInduct(inv, s);
  }

  lemma RoundIdle(s: H)
    requires Idle(s)
    ensures Idle(AfterRound(Arm(s)))
  {
    ArmOk(s);
  }

  // --- Acknowledgements come only for what was sent ---

  /** With `k` acknowledgements received, what was handed out matches the phase. */
  predicate Balanced(s: H, k: nat) {
    (Sending(s.phase) ==> |s.ops| == k + 1) && (Waiting(s.phase) ==> |s.ops| == k)
  }

  lemma OnRevisionBalanced(s: H, revision: Option<Byte>, k: nat)
    requires s.phase == WaitPeerRevision && |s.ops| == k
    ensures !OnRevision(s, revision).Fail? ==> Balanced(OnRevision(s, revision).s, k)
  {
  }

  lemma OnGreetingBalanced(s: H, g: Option<V3Greeting>, k: nat)
    requires s.phase == WaitV3Greeting && |s.ops| == k
    ensures !OnGreeting(s, g).Fail? ==> Balanced(OnGreeting(s, g).s, k)
  {
  }

  lemma GreetingBalanced(s: H, k: nat)
    requires Balanced(s, k)
    ensures s.phase == WaitPeerRevision && !ArmPeerRevision(s).Fail? ==> Balanced(ArmPeerRevision(s).s, k)
    ensures s.phase == WaitV3Greeting && !ArmV3Greeting(s).Fail? ==> Balanced(ArmV3Greeting(s).s, k)
    ensures s.phase == V2GreetingExchange && !ArmV2Greeting(s).Fail? ==> Balanced(ArmV2Greeting(s).s, k)
  {
    match s.phase
    case WaitPeerRevision =>
      FillOnlyMoves(s, PEEK_LENGTH);
      var f := Fill(s, PEEK_LENGTH);
      if |f.greeting| >= PEEK_LENGTH {
        OnRevisionBalanced(f, PeekRevision(f.greeting[..PEEK_LENGTH]), k);
      }
    case WaitV3Greeting =>
      FillOnlyMoves(s, GREETING_LENGTH);
      var f := Fill(s, GREETING_LENGTH);
      if |f.greeting| >= GREETING_LENGTH {
        OnGreetingBalanced(f.(greeting := f.greeting[GREETING_LENGTH..]), DecodeV3(f.greeting), k);
      }
    case _ =>
  }

  lemma IdentityBalanced(s: H, k: nat)
    requires s.phase == V2WaitIdentity && Balanced(s, k)
    ensures !ArmV2Identity(s).Fail? ==> Balanced(ArmV2Identity(s).s, k)
  {
  }

  lemma ArmBalanced(s: H, k: nat)
    requires Simple(s) && Balanced(s, k)
    ensures !Arm(s).Fail? && s.phase != DataPhase ==> Balanced(Arm(s).s, k)
  {
    match s.phase
    case SecurityExchange => NullBalanced(s, k);
    case ReadyServerWaitClient => ReadyBalanced(s, k);
    case ReadyClientWaitServer => ReadyBalanced(s, k);
    case V2WaitIdentity => IdentityBalanced(s, k);
    case _ => GreetingBalanced(s, k);
  }

  lemma SendReadyGrows(s: H, next: Phase)
    ensures SendReady(s, next).Next? ==> |SendReady(s, next).s.ops| == |s.ops| + 1 && SendReady(s, next).s.phase == next
    ensures !SendReady(s, next).Stop?
  {
  }

  lemma NullBalanced(s: H, k: nat)
    requires s.phase == SecurityExchange && s.mech == Some(NullMech) && Balanced(s, k)
    ensures !ArmSecurity(s).Fail? ==> Balanced(ArmSecurity(s).s, k)
  {
    var t := s.(mech := None, framer := Plain(ReadHeader), idSecurity := Or(s.idSecurity, None), phase := ReadyClientSend);
    SendReadyGrows(t, ReadyClientSend);
  }

  lemma OnReadyBalanced(s: H, c: Option<Command>, k: nat)
    requires s.phase == ReadyServerWaitClient || s.phase == ReadyClientWaitServer
    requires Balanced(s, k)
    ensures !OnReady(s, c).Fail? ==> Balanced(OnReady(s, c).s, k)
  {
  }

  lemma ReadyBalanced(s: H, k: nat)
    requires s.phase == ReadyServerWaitClient || s.phase == ReadyClientWaitServer
    requires Balanced(s, k)
    ensures !ArmReady(s).Fail? ==> Balanced(ArmReady(s).s, k)
  {
    if s.acc != [] {
      var o := TryRead(s.framer, s.cfg.maxMsgSize, s.acc);
      if o.res.Frame? {
        OnReadyBalanced(Take(s, o), CommandOf(o.res.msg), k);
      }
    }
  }

  lemma FeedNothing(s: H)
    ensures Feed(s, []) == s
  {
  }

  /** Processing without a deadline, outside the data phase. */
  lemma ProcessRound(s: H)
    requires s.phase != DataPhase
    ensures match Arm(s)
            case Next(u, progress) => progress ==> Process(s, Never) == Process(u, Never)
            case Stop(u) => Process(s, Never) == u
            case Fail(u, e) => Final(Process(s, Never).phase)
  {
    ProcessStep(s, Never);
  }

  lemma RestBalanced(s: H, k: nat)
    requires Rank(s.phase) >= 8
    ensures Balanced(s, k)
  {
  }

  lemma AfterBalanced(f: Flow, k: nat)
    requires f.Fail? || Balanced(f.s, k)
    ensures Balanced(AfterRound(f), k)
  {
    if f.Fail? {
      RestBalanced(AfterRound(f), k);
    }
  }

  lemma ArmOrBalanced(s: H, k: nat)
    requires Simple(s) && Balanced(s, k)
    ensures Arm(s).Fail? || Balanced(Arm(s).s, k)
  {
    if s.phase == DataPhase {
      DataStays(s);
      RestBalanced(DataLoop(s, false).s, k);
    } else {
      ArmBalanced(s, k);
    }
  }

  lemma RoundBalanced(s: H, k: nat)
    requires Simple(s) && Balanced(s, k)
    ensures var t := AfterRound(Arm(s)); Simple(t) && Balanced(t, k)
  {
    FeedNothing(s);
    RoundKeepsSimple(s, []);
    FeedNothing(AfterRound(Arm(s)));
    ArmOrBalanced(s, k);
    AfterBalanced(Arm(s), k);
  }

  lemma ProcessBalanced(s: H, k: nat)
    requires Simple(s) && Balanced(s, k)
    ensures Balanced(Process(s, Never), k)
  {
    var inv := (x: H) => Simple(x) && Balanced(x, k);
    forall u: H | inv(u) ensures inv(AfterRound(Arm(u))) {
      RoundBalanced(u, k);
    }
    ProcessInduct(inv, s);
  }

  lemma ServerReadyBalanced(s: H, k: nat)
    requires s.phase == ReadyServerSend
    ensures Balanced(Ack(s), k)
  {
    AnnouncedOk(s.(phase := DataPhase), Never);
  }

  lemma ResumeBalanced(s: H, k: nat)
    requires Simple(s) && Balanced(s, k)
    ensures Balanced(Resume(s, Never), k)
  {
    ProcessBalanced(s, k);
  }

  lemma SendingBalanced(s: H, k: nat)
    requires Simple(s) && Balanced(s, k) && Sending(s.phase)
    ensures Balanced(Ack(s), k + 1)
  {
    if s.phase == ReadyServerSend {
      ServerReadyBalanced(s, k + 1);
    } else {
      ResumeBalanced(s.(phase := AckPhase(s.phase)), k + 1);
    }
  }

  lemma AckBalanced(s: H, k: nat)
    requires Simple(s) && Balanced(s, k) && k < |s.ops|
    ensures Balanced(Ack(s), k + 1) && !Waiting(s.phase)
  {
    if Sending(s.phase) {
      SendingBalanced(s, k);
    } else {
      CompletedServes(s, Acked, Never);
    }
  }

  // --- The handler as a machine of octets and acknowledgements ---

  predicate Able(s: H, b: Octets) { Simple(Feed(s, b)) && Idle(s) && s.phase != Initial }

  function Session(): Machine<H> {
    Machine(Ack, Receive, Able, (s: H) => Waiting(s.phase), Balanced, (s: H) => |s.ops|)
  }

  lemma FeedTwice(s: H, a: Octets, b: Octets)
    ensures Feed(Feed(s, a), b) == Feed(s, a + b)
  {
  }

  lemma ReceiveProcesses(s: H, b: Octets)
    requires b != []
    ensures Receive(s, b) == Process(Feed(s, b), Never)
  {
  }

  lemma ReceiveJoins(s: H, a: Octets, b: Octets)
    requires Able(s, a + b) && a != [] && b != []
    ensures Receive(Receive(s, a), b) == Receive(s, a + b)
  {
    FeedTwice(s, a, b);
    Merges(Feed(s, a), b);
    ReceiveProcesses(s, a);
    ReceiveProcesses(s, a + b);
    ReceiveProcesses(Process(Feed(s, a), Never), b);
  }

  lemma ReceiveAble(s: H, a: Octets, b: Octets)
    requires Able(s, a + b) && a != []
    ensures Able(Receive(s, a), b)
  {
    FeedTwice(s, a, b);
    ReceiveProcesses(s, a);
    ProcessSimple(Feed(s, a), b);
    ProcessIdle(Feed(s, a));
    ProcessOk(Feed(s, a), Never);
  }

  lemma AckIdle(s: H)
    requires Idle(s) && s.phase != Initial
    ensures Idle(Ack(s)) && Ack(s).phase != Initial
  {
    CompletedServes(s, Acked, Never);
    if s.phase == ReadyServerSend {
      ProcessIdle(Announce(s.(phase := DataPhase)).s);
    } else if s.phase != DataPhase {
      ProcessIdle(s.(phase := AckPhase(s.phase)));
    }
  }

  lemma AckLate(s: H, b: Octets)
    requires s.phase == DataPhase || s.phase == ReadyServerSend
    ensures Simple(Feed(Ack(s), b))
  {
    CompletedServes(s, Acked, Never);
    if s.phase == ReadyServerSend {
      AnnouncedOk(s.(phase := DataPhase), Never);
    }
    FinalSimple(Ack(s), b);
  }

  lemma ResumeSimple(s: H, b: Octets)
    requires Simple(Feed(s, b))
    ensures Simple(Feed(Resume(s, Never), b))
  {
    ProcessSimple(s, b);
  }

  lemma AckEarly(s: H, b: Octets)
    requires Simple(Feed(s, b)) && Sending(s.phase) && s.phase != ReadyServerSend
    ensures Simple(Feed(s.(phase := AckPhase(s.phase)), b))
  {
  }

  lemma AckSendingSimple(s: H, b: Octets)
    requires Simple(Feed(s, b)) && Sending(s.phase) && s.phase != ReadyServerSend
    ensures Simple(Feed(Ack(s), b))
  {
    AckEarly(s, b);
    ResumeSimple(s.(phase := AckPhase(s.phase)), b);
  }

  lemma AckStays(s: H)
    requires !Sending(s.phase) && s.phase != DataPhase
    ensures Ack(s) == s
  {
  }

  lemma AckSimple(s: H, b: Octets)
    requires Simple(Feed(s, b)) && !Waiting(s.phase)
    ensures Simple(Feed(Ack(s), b))
  {
    if s.phase == DataPhase || s.phase == ReadyServerSend {
      AckLate(s, b);
    } else if Sending(s.phase) {
      AckSendingSimple(s, b);
    } else {
      AckStays(s);
    }
  }

  lemma AbleNarrows(s: H, a: Octets, b: Octets)
    requires Able(s, a + b)
    ensures Able(s, a)
  {
  }

  lemma ReceiveBalanced(s: H, b: Octets, k: nat)
    requires Able(s, b) && b != [] && Balanced(s, k)
    ensures Balanced(Receive(s, b), k)
  {
    ReceiveProcesses(s, b);
    ProcessBalanced(Feed(s, b), k);
  }

  lemma SessionJoins()
    ensures Joins(Session()) && Narrows(Session()) && ReceiveKeepsAble(Session())
  {
    forall s, a, b | Able(s, a + b) ensures Able(s, a) {
      AbleNarrows(s, a, b);
    }
    forall s, a, b | Able(s, a + b) && a != [] && b != []
      ensures Receive(Receive(s, a), b) == Receive(s, a + b) && Able(Receive(s, a), b)
    {
      ReceiveJoins(s, a, b);
      ReceiveAble(s, a, b);
    }
    forall s, a | Able(s, a) && a != [] ensures Able(Receive(s, a), []) {
      assert a + [] == a;
      ReceiveAble(s, a, []);
    }
  }

  lemma SessionSwaps()
    ensures Swaps(Session()) && AckKeepsAble(Session())
  {
    forall s, b | Able(s, b) && !Waiting(s.phase) && b != []
      ensures Receive(Ack(s), b) == Ack(Receive(s, b)) && !Waiting(Receive(s, b).phase)
    {
      AckSwaps(s, b);
    }
    forall s, b | Able(s, b) && !Waiting(s.phase) ensures Able(Ack(s), b) {
      AckSimple(s, b);
      AckIdle(s);
    }
  }

  lemma SessionBalances()
    ensures ReceiveBalances(Session()) && AckBalances(Session())
  {
    forall s, b, k: nat | Able(s, b) && b != [] && Balanced(s, k) ensures Balanced(Receive(s, b), k) {
      ReceiveBalanced(s, b, k);
    }
    forall s, k: nat | Able(s, []) && Balanced(s, k) && k < |s.ops|
      ensures !Waiting(s.phase) && Balanced(Ack(s), k + 1)
    {
      FeedNothing(s);
      AckBalanced(s, k);
    }
  }

  // --- Whole runs ---

  /** A read of something, or a completed send; no deadline passes. */
  predicate Ordinary(e: Event) {
    || (e.Read? && e.chunk != [] && e.clock == Never)
    || (e.Completed? && e.result != Fatal && e.clock == Never)
  }

  predicate Undisturbed(es: seq<Event>) {
    forall i :: 0 <= i < |es| ==> Ordinary(es[i])
  }

  /** What a run received, and what was acknowledged, in order. */
  function Inputs(es: seq<Event>): (inputs: seq<Input>)
    ensures |inputs| == |es|
  {
    if es == [] then []
    else
      var last := es[|es| - 1];
      Inputs(es[..|es| - 1]) + [if last.Read? then Chunk(last.chunk) else Acknowledged]
  }

  lemma StepApplies(s: H, e: Event)
    requires Ordinary(e)
    ensures Step(s, e) == Apply(Session(), s, if e.Read? then Chunk(e.chunk) else Acknowledged)
  {
  }

  lemma {:induction false} RunApplies(s: H, es: seq<Event>)
    requires Undisturbed(es)
    ensures Run(s, es) == RunInputs(Session(), s, Inputs(es))
  {
    if es != [] {
      var most, last := es[..|es| - 1], es[|es| - 1];
      RunApplies(s, most);
      assert Ordinary(last);
      StepApplies(Run(s, most), last);
      var inputs := Inputs(es);
      assert inputs[..|inputs| - 1] == Inputs(most);
    }
  }

  /** The octets suit the configuration: NULL security, or a peer that speaks ZMTP/2.0. */
  predicate Suits(cfg: Config, octets: Octets) {
    NullOnly(cfg.security) || SpeaksV2(octets)
  }

  lemma StartAble(cfg: Config, isServer: bool, room: nat, octets: Octets)
    requires Suits(cfg, octets)
    ensures var s := Connected(cfg, isServer, room); Able(s, octets) && Balanced(s, 0)
  {
  }

  lemma SameEnd(s: H, es: seq<Event>, fs: seq<Event>)
    requires Undisturbed(es) && Undisturbed(fs)
    requires Causal(Session(), s, Inputs(es)) && Causal(Session(), s, Inputs(fs))
    requires OctetsOf(Inputs(es)) == OctetsOf(Inputs(fs)) && AcksOf(Inputs(es)) == AcksOf(Inputs(fs))
    requires Able(s, OctetsOf(Inputs(es))) && Balanced(s, 0)
    ensures Run(s, es) == Run(s, fs)
  {
    SessionJoins();
    SessionSwaps();
    SessionBalances();
    RunApplies(s, es);
    RunApplies(s, fs);
    OrderIrrelevant(Session(), s, Inputs(es), Inputs(fs));
  }

  /** The main result: two runs that receive the same octets and as many acknowledgements, each of
      something sent before, end in the same state: phase, leftover octets, events and all. */
  lemma InterleavingIrrelevant(cfg: Config, isServer: bool, room: nat, es: seq<Event>, fs: seq<Event>)
    requires Undisturbed(es) && Undisturbed(fs)
    requires var s := Connected(cfg, isServer, room);
             Causal(Session(), s, Inputs(es)) && Causal(Session(), s, Inputs(fs))
    requires OctetsOf(Inputs(es)) == OctetsOf(Inputs(fs)) && AcksOf(Inputs(es)) == AcksOf(Inputs(fs))
    requires Suits(cfg, OctetsOf(Inputs(es)))
    ensures Run(Connected(cfg, isServer, room), es) == Run(Connected(cfg, isServer, room), fs)
  {
    StartAble(cfg, isServer, room, OctetsOf(Inputs(es)));
    SameEnd(Connected(cfg, isServer, room), es, fs);
  }
}
