/** The REP socket's state (socket/rep_socket.rs) under any interleaving of arriving requests,
    receive calls, send calls and disconnects. */
module RepSocket {
  import opened Bytes
  import opened Frames
  import opened Envelopes

  datatype Request = Request(pipe: nat, endpoint: nat, prefix: seq<Msg>, payload: seq<Msg>)

  /** A request held for reply is known by its place in the order of receipt. */
  datatype RepState = ReadyToReceive | ReceivedRequest(serial: nat, info: Request)

  datatype Answer = Answer(serial: nat, endpoint: nat, payload: seq<Msg>, wire: seq<Msg>)

  /** `checked` counts receive calls that have seen the socket ready but have no request yet;
      `popped` lists the requests handed to the application and `answers` the replies sent. */
  datatype Rep = Rep(
    state: RepState,
    queue: seq<Request>,
    checked: nat,
    popped: seq<Request>,
    answers: seq<Answer>)

  function NewRep(): Rep { Rep(ReadyToReceive, [], 0, [], []) }

  datatype Event =
    | Arrived(pipe: nat, endpoint: nat, frames: seq<Msg>)
    | ReceiveStarts
    | ReceivePops
    | Sends(payload: seq<Msg>, connected: bool)
    | Detached(pipe: nat)

  function Arrive(r: Rep, pipe: nat, endpoint: nat, frames: seq<Msg>): Rep {
    var e := Split(frames);
    r.(queue := r.queue + [Request(pipe, endpoint, e.prefix, e.payload)])
  }

  function StartReceive(r: Rep): Rep {
    if r.state.ReadyToReceive? then r.(checked := r.checked + 1) else r
  }

  /** A waiting receive call gets the first request; whatever was held before is replaced. */
  function Pop(r: Rep): Rep {
    if r.checked == 0 || r.queue == [] then r
    else
      r.(state := ReceivedRequest(|r.popped|, r.queue[0]), queue := r.queue[1..],
         checked := r.checked - 1, popped := r.popped + [r.queue[0]])
  }

  /** The held request is given up first; the reply goes out if its connection is still there. */
  function Send(r: Rep, payload: seq<Msg>, connected: bool): Rep {
    if r.state.ReadyToReceive? then r
    else
      var t := r.(state := ReadyToReceive);
      if connected
      then t.(answers := r.answers + [Answer(r.state.serial, r.state.info.endpoint, payload, Reply(r.state.info.prefix, payload))])
      else t
  }

  function Detach(r: Rep, pipe: nat): Rep {
    if r.state.ReceivedRequest? && r.state.info.pipe == pipe then r.(state := ReadyToReceive) else r
  }

  function Step(r: Rep, e: Event): Rep {
    match e
    case Arrived(pipe, endpoint, frames) => Arrive(r, pipe, endpoint, frames)
    case ReceiveStarts => StartReceive(r)
    case ReceivePops => Pop(r)
    case Sends(payload, connected) => Send(r, payload, connected)
    case Detached(pipe) => Detach(r, pipe)
  }

  function Run(r: Rep, es: seq<Event>): Rep {
    if es == [] then r else Step(Run(r, es[..|es| - 1]), es[|es| - 1])
  }

  /** Every answer is to a request received before, at its endpoint and behind its envelope; no
      request is answered twice, and one still held has not been answered. */
  predicate Sound(r: Rep) {
    && (forall i :: 0 <= i < |r.answers| ==> Fits(r.answers[i], r.popped))
    && (forall i, j :: 0 <= i < j < |r.answers| ==> r.answers[i].serial != r.answers[j].serial)
    && (r.state.ReceivedRequest? ==>
          && r.state.serial < |r.popped| && r.popped[r.state.serial] == r.state.info
          && forall i :: 0 <= i < |r.answers| ==> r.answers[i].serial != r.state.serial)
  }

  predicate Fits(a: Answer, popped: seq<Request>) {
    && a.serial < |popped|
    && a.endpoint == popped[a.serial].endpoint
    && a.wire == Reply(popped[a.serial].prefix, a.payload)
  }

  lemma StepSound(r: Rep, e: Event)
    requires Sound(r)
    ensures Sound(Step(r, e))
  {
    var t := Step(r, e);
    forall i | 0 <= i < |t.answers| ensures Fits(t.answers[i], t.popped) {
      if i < |r.answers| {
        assert Fits(r.answers[i], r.popped);
      }
    }
  }

  /** In every interleaving each request is answered at most once, to its own endpoint and behind
      its own envelope. */
  lemma {:induction false} AnsweredAtMostOnce(es: seq<Event>)
    ensures Sound(Run(NewRep(), es))
  {
    if es != [] {
      AnsweredAtMostOnce(es[..|es| - 1]);
      StepSound(Run(NewRep(), es[..|es| - 1]), es[|es| - 1]);
    }
  }

  // --- What becomes of a received request ---

  predicate Holds(r: Rep, k: nat) { r.state.ReceivedRequest? && r.state.serial == k }

  predicate Replied(r: Rep, k: nat) { exists i :: 0 <= i < |r.answers| && r.answers[i].serial == k }

  /** Received, and neither held for reply nor answered. */
  predicate Lost(r: Rep, k: nat) { k < |r.popped| && !Holds(r, k) && !Replied(r, k) }

  /** The reply to the held request cannot go out: its send fails, or its peer leaves. */
  predicate GivesUp(r: Rep, e: Event) {
    r.state.ReceivedRequest? && ((e.Sends? && !e.connected) || (e.Detached? && e.pipe == r.state.info.pipe))
  }

  /** A second receive call takes the held request's place. */
  predicate Overtakes(r: Rep, e: Event) {
    e.ReceivePops? && r.state.ReceivedRequest? && r.checked > 0 && r.queue != []
  }

  /** One event loses a request exactly when it gives up or overtakes the one that is held. */
  lemma StepLosesIff(r: Rep, e: Event, k: nat)
    requires Sound(r) && !Lost(r, k)
    ensures Lost(Step(r, e), k) <==> Holds(r, k) && (GivesUp(r, e) || Overtakes(r, e))
  {
    var t := Step(r, e);
    forall i | 0 <= i < |r.answers| ensures t.answers[i] == r.answers[i] {
    }
    if e.Sends? && e.connected && r.state.ReceivedRequest? {
      assert t.answers[|r.answers|].serial == r.state.serial;
    }
  }

  /** What is lost stays lost: no later reply can be for it. */
  lemma {:induction false} LostForever(r: Rep, es: seq<Event>, k: nat)
    requires Sound(r) && Lost(r, k)
    ensures Sound(Run(r, es)) && Lost(Run(r, es), k)
    decreases |es|
  {
    if es != [] {
      var before := Run(r, es[..|es| - 1]);
      LostForever(r, es[..|es| - 1], k);
      StepSound(before, es[|es| - 1]);
    }
  }

  /** Somewhere along the run the request was held and an event of this kind met it. */
  predicate MetBy(es: seq<Event>, k: nat, kind: (Rep, Event) -> bool) {
    exists j :: 0 <= j < |es| && Holds(Run(NewRep(), es[..j]), k) && kind(Run(NewRep(), es[..j]), es[j])
  }

  lemma MetLater(es: seq<Event>, k: nat, kind: (Rep, Event) -> bool)
    requires es != []
    ensures MetBy(es, k, kind) <==>
            || MetBy(es[..|es| - 1], k, kind)
            || (var before := Run(NewRep(), es[..|es| - 1]); Holds(before, k) && kind(before, es[|es| - 1]))
  {
    var most := es[..|es| - 1];
    forall j | 0 <= j < |most| ensures most[..j] == es[..j] && most[j] == es[j] {
    }
    if MetBy(es, k, kind) {
      var j :| 0 <= j < |es| && Holds(Run(NewRep(), es[..j]), k) && kind(Run(NewRep(), es[..j]), es[j]);
      if j < |most| {
        assert Holds(Run(NewRep(), most[..j]), k) && kind(Run(NewRep(), most[..j]), most[j]);
      }
    }
    if MetBy(most, k, kind) {
      var j :| 0 <= j < |most| && Holds(Run(NewRep(), most[..j]), k) && kind(Run(NewRep(), most[..j]), most[j]);
      assert Holds(Run(NewRep(), es[..j]), k) && kind(Run(NewRep(), es[..j]), es[j]);
    }
  }

  /** In every interleaving: a received request is lost if and only if, while it was held, its send
      failed, its peer left, or another receive call overtook it. */
  lemma {:induction false} LostIff(es: seq<Event>, k: nat)
    ensures Lost(Run(NewRep(), es), k) <==> MetBy(es, k, GivesUp) || MetBy(es, k, Overtakes)
    decreases |es|
  {
    if es != [] {
      var most, last := es[..|es| - 1], es[|es| - 1];
      var before := Run(NewRep(), most);
      LostIff(most, k);
      AnsweredAtMostOnce(most);
      MetLater(es, k, GivesUp);
      MetLater(es, k, Overtakes);
      if Lost(before, k) {
        LostForever(before, [last], k);
        assert [last][..0] == [];
        assert Run(before, [last]) == Step(before, last);
      } else {
        StepLosesIff(before, last, k);
      }
    }
  }

  /** Receive calls one at a time: none starts while another waits for its request. */
  predicate OneAtATime(es: seq<Event>) {
    forall j :: 0 <= j < |es| && es[j].ReceiveStarts? ==> Run(NewRep(), es[..j]).checked == 0
  }

  lemma {:induction false} SingleReceiver(es: seq<Event>)
    requires OneAtATime(es)
    ensures var r := Run(NewRep(), es); r.checked + (if r.state.ReceivedRequest? then 1 else 0) <= 1
    decreases |es|
  {
    if es != [] {
      var most := es[..|es| - 1];
      forall j | 0 <= j < |most| && most[j].ReceiveStarts? ensures Run(NewRep(), most[..j]).checked == 0 {
        assert most[..j] == es[..j] && most[j] == es[j];
      }
      SingleReceiver(most);
    }
  }

  /** Then none is overtaken: what is received is held until it is answered, its send fails or its
      peer leaves. */
  lemma NoneOvertaken(es: seq<Event>, k: nat)
    requires OneAtATime(es)
    ensures !MetBy(es, k, Overtakes)
    ensures var r := Run(NewRep(), es); k < |r.popped| ==> Holds(r, k) || Replied(r, k) || MetBy(es, k, GivesUp)
  {
    forall j | 0 <= j < |es| ensures !Overtakes(Run(NewRep(), es[..j]), es[j]) {
      forall i | 0 <= i < |es[..j]| && es[..j][i].ReceiveStarts? ensures Run(NewRep(), es[..j][..i]).checked == 0 {
        assert es[..j][..i] == es[..i];
      }
      SingleReceiver(es[..j]);
    }
    LostIff(es, k);
  }

  lemma RunTwo(r: Rep, es: seq<Event>, e: Event, f: Event)
    ensures Run(r, es + [e, f]) == Step(Step(Run(r, es), e), f)
  {
    assert (es + [e, f])[..|es| + 1] == es + [e] && (es + [e])[..|es|] == es;
  }

  function Overlap(a: Event, b: Event): seq<Event> {
    [a, b, ReceiveStarts, ReceiveStarts, ReceivePops, ReceivePops]
  }

  /** Two receive calls that overlap: with any two requests, the first one is never answered,
      whatever happens afterwards. */
  lemma OverlappingReceives(a: Event, b: Event, es: seq<Event>)
    requires a.Arrived? && b.Arrived?
    ensures Lost(Run(Run(NewRep(), Overlap(a, b)), es), 0)
  {
    var ev := Overlap(a, b);
    var starts, pops := [ReceiveStarts, ReceiveStarts], [ReceivePops, ReceivePops];
    RunTwo(NewRep(), [], a, b);
    RunTwo(NewRep(), [a, b], ReceiveStarts, ReceiveStarts);
    RunTwo(NewRep(), [a, b] + starts, ReceivePops, ReceivePops);
    assert ev == [a, b] + starts + pops && [] + [a, b] == [a, b];
    var r := Run(NewRep(), ev);
    AnsweredAtMostOnce(ev);
    LostForever(r, es, 0);
  }

  /** What the application sends goes back behind the very prefix that came with the request. */
  lemma ReplyKeepsEnvelope(pipe: nat, endpoint: nat, frames: seq<Msg>, payload: seq<Msg>)
    ensures var r := Arrive(NewRep(), pipe, endpoint, frames);
            var done := Send(Pop(StartReceive(r)), payload, true);
            && done.answers == [Answer(0, endpoint, payload, Chained(Split(frames).prefix + Answered(payload)))]
            && done.popped == [Request(pipe, endpoint, Split(frames).prefix, Split(frames).payload)]
            && done.state == ReadyToReceive
  {
  }

  /** The socket as the source keeps it. */
  class Socket {
    var state: RepState
    var queue: seq<Request>
    var checked: nat
    var popped: seq<Request>
    var answers: seq<Answer>

    ghost function Value(): Rep
      reads this
    {
      Rep(state, queue, checked, popped, answers)
    }

    constructor ()
      ensures Value() == NewRep()
    {
      state, queue, checked, popped, answers := ReadyToReceive, [], 0, [], [];
    }

    method HandlePipeMessage(pipe: nat, endpoint: nat, frames: seq<Msg>)
      modifies this
      ensures Value() == Arrive(old(Value()), pipe, endpoint, frames)
    {
      var prefix, payload := SplitRequest(frames);
      queue := queue + [Request(pipe, endpoint, prefix, payload)];
    }

    method CheckReady() returns (ok: bool)
      modifies this
      ensures Value() == StartReceive(old(Value())) && ok == old(state).ReadyToReceive?
    {
      ok := state.ReadyToReceive?;
      if ok {
        checked := checked + 1;
      }
    }

    method PopRequest() returns (payload: Option<seq<Msg>>)
      modifies this
      ensures Value() == Pop(old(Value()))
      ensures payload == if old(checked == 0 || queue == []) then None else Some(old(queue)[0].payload)
    {
      if checked == 0 || queue == [] {
        return None;
      }
      var first := queue[0];
      queue := queue[1..];
      checked := checked - 1;
      state := ReceivedRequest(|popped|, first);
      popped := popped + [first];
      return Some(first.payload);
    }

    method SendMultipart(payload: seq<Msg>, connected: bool) returns (ok: bool)
      modifies this
      ensures Value() == Send(old(Value()), payload, connected)
      ensures ok == (old(state).ReceivedRequest? && connected)
    {
      ok := false;
      if state.ReadyToReceive? {
        return;
      }
      var frames := if payload == [] then [Empty(false)] else payload;
      var serial, info := state.serial, state.info;
      state := ReadyToReceive;
      if !connected {
        return;
      }
      var wire := SetMoreFlags(info.prefix + frames);
      answers := answers + [Answer(serial, info.endpoint, payload, wire)];
      ok := true;
    }

    method PipeDetached(pipe: nat)
      modifies this
      ensures Value() == Detach(old(Value()), pipe)
    {
      if state.ReceivedRequest? && state.info.pipe == pipe {
        state := ReadyToReceive;
      }
    }
  }
}
