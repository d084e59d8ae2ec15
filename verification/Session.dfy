/** The session actor of a connection (sessionx/actor.rs, sessionx/pipe_manager.rs). */
module Session {
  import opened Bytes

  datatype Phase = HandshakeInProgress | WaitingForPipes | Operational | ShuttingDownStream | Terminating

  function Rank(p: Phase): nat {
    match p
    case HandshakeInProgress => 0
    case WaitingForPipes => 1
    case Operational => 2
    case ShuttingDownStream => 3
    case Terminating => 4
  }

  /** The pipes from the socket; they come with the id that incoming messages are routed by. */
  datatype Pipes = Pipes(attached: bool, readId: Option<nat>)

  function Attach(p: Pipes, id: nat): Pipes { if p.attached then p else Pipes(true, Some(id)) }

  function Detach(p: Pipes): Pipes { Pipes(false, None) }

  datatype Published = Published(readId: nat, identity: Option<Octets>)

  /** Errors are numbered. `done` is whether the protocol handler has finished its handshake. */
  datatype Actor = Actor(
    handle: nat,
    phase: Phase,
    done: bool,
    pipes: Pipes,
    identity: Option<Octets>,
    error: Option<nat>,
    published: seq<Published>)

  function NewActor(handle: nat): Actor {
    Actor(handle, HandshakeInProgress, false, Pipes(false, None), None, None, [])
  }

  datatype Progress = InProgress | IdentityReady(id: Octets) | HandshakeComplete | Failed(error: nat)

  datatype Event =
    | InitializePipes(target: nat, readId: nat)
    | Network(progress: Progress, done: bool)  // a read during the handshake, and whether it ended it
    | Data                                     // anything that leaves the session as it is
    | Stopped(error: Option<nat>)              // a stop command, or the parent or peer going away
    | Fault(cause: nat)
    | Turn(error: Option<nat>)                 // the turn of the loop that closes the stream

  /** Which events the loop takes in which phase. */
  predicate Taken(a: Actor, e: Event) {
    match e
    case Turn(_) => a.phase == ShuttingDownStream
    case Network(_, done) => a.phase == HandshakeInProgress && (a.done ==> done)
    case _ => a.phase != ShuttingDownStream && a.phase != Terminating
  }

  function FirstError(a: Actor, e: Option<nat>): Option<nat> { if a.error.Some? then a.error else e }

  function ToShutdown(a: Actor, e: Option<nat>): Actor {
    if a.phase == ShuttingDownStream || a.phase == Terminating then a
    else a.(error := FirstError(a, e), phase := ShuttingDownStream)
  }

  function FatalError(a: Actor, e: nat): Actor {
    ToShutdown(a.(error := FirstError(a, Some(e))), None)
  }

  const ROUTING_ID_MISSING := 0

  function CheckOperational(a: Actor): Actor {
    if a.phase == WaitingForPipes && a.done && a.pipes.attached then
      var t := a.(phase := Operational, identity := None);
      match a.pipes.readId
      case Some(id) => t.(published := a.published + [Published(id, a.identity)])
      case None => FatalError(t, ROUTING_ID_MISSING)
    else a
  }

  function Initialize(a: Actor, target: nat, readId: nat): Actor {
    if target != a.handle || a.pipes.attached || a.phase == ShuttingDownStream || a.phase == Terminating then a
    else
      var t := a.(pipes := Attach(a.pipes, readId));
      if t.phase == WaitingForPipes then CheckOperational(t)
      else if t.phase == HandshakeInProgress && t.done then CheckOperational(t.(phase := WaitingForPipes))
      else t
  }

  function Progressed(a: Actor, p: Progress): Actor {
    if a.phase != HandshakeInProgress then a
    else if p.Failed? then FatalError(a, p.error)
    else
      var t := if p.IdentityReady? then a.(identity := Some(p.id)) else a;
      if t.done then CheckOperational(t.(phase := WaitingForPipes)) else t
  }

  function Shutdown(a: Actor, e: Option<nat>): Actor {
    a.(error := FirstError(a, e), pipes := Detach(a.pipes), phase := Terminating)
  }

  function Step(a: Actor, e: Event): Actor {
    match e
    case InitializePipes(target, readId) => Initialize(a, target, readId)
    case Network(p, done) => Progressed(a.(done := done), p)
    case Data => a
    case Stopped(error) => ToShutdown(a, error)
    case Fault(cause) => FatalError(a, cause)
    case Turn(error) => Shutdown(a, error)
  }

  predicate IsRun(a: Actor, es: seq<Event>) {
    es != [] ==> IsRun(a, es[..|es| - 1]) && Taken(Run(a, es[..|es| - 1]), es[|es| - 1])
  }

  function Run(a: Actor, es: seq<Event>): Actor {
    if es == [] then a else Step(Run(a, es[..|es| - 1]), es[|es| - 1])
  }

  // --- Over every run ---

  /** Pipes and their id go together; the phase says what has happened; one identity is published,
      when the session becomes operational, with the id of the attached pipes. */
  predicate Consistent(a: Actor) {
    && (a.pipes.attached <==> a.pipes.readId.Some?)
    && (a.phase == HandshakeInProgress ==> !a.done && a.published == [])
    && (a.phase == WaitingForPipes ==> a.done && !a.pipes.attached && a.published == [])
    && (a.phase == Operational ==> a.done && a.pipes.attached && |a.published| == 1)
    && |a.published| <= 1
    && (|a.published| == 1 && a.pipes.attached ==> Some(a.published[0].readId) == a.pipes.readId)
    && (a.phase == Terminating ==> !a.pipes.attached)
  }

  lemma StepConsistent(a: Actor, e: Event)
    requires Consistent(a) && Taken(a, e)
    ensures Consistent(Step(a, e))
    ensures Rank(Step(a, e).phase) >= Rank(a.phase)
    ensures a.error.Some? ==> Step(a, e).error == a.error
    ensures a.published <= Step(a, e).published
  {
  }

  lemma {:induction false} RunConsistent(handle: nat, es: seq<Event>)
    requires IsRun(NewActor(handle), es)
    ensures Consistent(Run(NewActor(handle), es))
  {
    if es != [] {
      RunConsistent(handle, es[..|es| - 1]);
      StepConsistent(Run(NewActor(handle), es[..|es| - 1]), es[|es| - 1]);
    }
  }

  /** Phases never go back, the first recorded error stays, and so does what was published. */
  lemma {:induction false} NothingIsTakenBack(handle: nat, es: seq<Event>, n: nat)
    requires IsRun(NewActor(handle), es) && n <= |es|
    ensures var a := Run(NewActor(handle), es[..n]);
            var b := Run(NewActor(handle), es);
            && Rank(a.phase) <= Rank(b.phase)
            && (a.error.Some? ==> b.error == a.error)
            && a.published <= b.published && |b.published| <= 1
  {
    if n == |es| {
      assert es[..n] == es;
      RunConsistent(handle, es);
    } else {
      var most := es[..|es| - 1];
      assert most[..n] == es[..n];
      NothingIsTakenBack(handle, most, n);
      RunConsistent(handle, most);
      StepConsistent(Run(NewActor(handle), most), es[|es| - 1]);
      RunConsistent(handle, es);
    }
  }

  // --- Runs without a shutdown ---

  predicate EndsSession(e: Event) {
    e.Stopped? || e.Fault? || e.Turn? || (e.Network? && e.progress.Failed?)
  }

  /** Pipes for this session have come. */
  predicate PipesCame(handle: nat, es: seq<Event>) {
    exists i :: 0 <= i < |es| && es[i].InitializePipes? && es[i].target == handle
  }

  /** The handshake has been reported complete. */
  predicate HandshakeEnded(es: seq<Event>) {
    exists i :: 0 <= i < |es| && es[i].Network? && es[i].done
  }

  predicate Undisturbed(es: seq<Event>) {
    forall i :: 0 <= i < |es| ==> !EndsSession(es[i])
  }

  lemma CameSnoc(handle: nat, es: seq<Event>)
    requires es != []
    ensures var most, last := es[..|es| - 1], es[|es| - 1];
            && (PipesCame(handle, es) <==> PipesCame(handle, most) || (last.InitializePipes? && last.target == handle))
            && (HandshakeEnded(es) <==> HandshakeEnded(most) || (last.Network? && last.done))
  {
  }

  /** The main result: as long as nothing ends the session, it is operational exactly when the
      handshake is complete and the pipes are attached, whichever came first; then its identity has
      been published once, with the id of the pipes. */
  lemma {:induction false} OperationalIff(handle: nat, es: seq<Event>)
    requires IsRun(NewActor(handle), es) && Undisturbed(es)
    ensures var a := Run(NewActor(handle), es);
            && Consistent(a) && Rank(a.phase) <= 2
            && (a.done <==> HandshakeEnded(es)) && (a.pipes.attached <==> PipesCame(handle, es)) && a.handle == handle
            && (a.phase == Operational <==> HandshakeEnded(es) && PipesCame(handle, es))
            && (|a.published| == 1 <==> a.phase == Operational)
  {
    if es != [] {
      var most, last := es[..|es| - 1], es[|es| - 1];
      assert !EndsSession(last);
      assert forall i :: 0 <= i < |most| ==> most[i] == es[i];
      OperationalIff(handle, most);
      CameSnoc(handle, es);
      StepConsistent(Run(NewActor(handle), most), last);
    }
  }

  /** The actor as the source keeps it. */
  class SessionConnectionActor {
    const handle: nat
    var phase: Phase
    var done: bool
    var pipes: Pipes
    var identity: Option<Octets>
    var error: Option<nat>
    var published: seq<Published>

    ghost function Value(): Actor
      reads this
    {
      Actor(handle, phase, done, pipes, identity, error, published)
    }

    constructor (handle: nat)
      ensures Value() == NewActor(handle)
    {
      this.handle := handle;
      phase, done, pipes := HandshakeInProgress, false, Pipes(false, None);
      identity, error, published := None, None, [];
    }

    method TransitionToShutdownStream(e: Option<nat>)
      modifies this
      ensures Value() == ToShutdown(old(Value()), e)
    {
      if phase != ShuttingDownStream && phase != Terminating {
        if error.None? {
          error := e;
        }
        phase := ShuttingDownStream;
      }
    }

    method SetFatalError(e: nat)
      modifies this
      ensures Value() == FatalError(old(Value()), e)
    {
      if error.None? {
        error := Some(e);
      }
      TransitionToShutdownStream(None);
    }

    method CheckAndTransitionToOperational()
      modifies this
      ensures Value() == CheckOperational(old(Value()))
    {
      if phase == WaitingForPipes && done && pipes.attached {
        phase := Operational;
        var id := identity;
        identity := None;
        if pipes.readId.None? {
          SetFatalError(ROUTING_ID_MISSING);
          return;
        }
        published := published + [Published(pipes.readId.value, id)];
      }
    }

    method InitializePipesCommand(target: nat, readId: nat)
      modifies this
      ensures Value() == Initialize(old(Value()), target, readId)
    {
      if target != handle || pipes.attached || phase == ShuttingDownStream || phase == Terminating {
        return;
      }
      pipes := Pipes(true, Some(readId));
      if phase == WaitingForPipes {
        CheckAndTransitionToOperational();
      } else if phase == HandshakeInProgress && done {
        phase := WaitingForPipes;
        CheckAndTransitionToOperational();
      }
    }

    method HandleHandshakeProgression(p: Progress)
      modifies this
      ensures Value() == Progressed(old(Value()), p)
    {
      if phase != HandshakeInProgress {
        return;
      }
      match p {
        case Failed(e) =>
          SetFatalError(e);
          return;
        case IdentityReady(id) =>
          identity := Some(id);
          if !done {
            return;
          }
        case _ =>
      }
      if done {
        phase := WaitingForPipes;
        CheckAndTransitionToOperational();
      }
    }

    method PerformGracefulShutdown(e: Option<nat>)
      modifies this
      ensures Value() == Shutdown(old(Value()), e)
    {
      if error.None? {
        error := e;
      }
      pipes := Pipes(false, None);
      phase := Terminating;
    }
  }
}
