/** The DEALER send path (socket/dealer_socket.rs): any number of senders, one queue and one
    processor task, as interleaved steps. A message stands for one send call. A connection send
    that fails has delivered nothing. */
module DealerQueue {

  /** Where a sender is in its call. */
  datatype Sender =
    | Idle
    | Trying(msg: nat)      // offering the message to connections
    | Queueing(msg: nat)    // looking for room in the queue
    | Pushing(msg: nat)     // room was seen, the push is still to come

  datatype Processor = Waiting | Holding(msg: nat)

  /** `issued` counts the calls; `delivered` lists deliveries, by senders and processor alike, and
      `processed` the processor's; `enqueued` is the order of pushes; `failed` lists calls that
      ended in an error. */
  datatype State = State(
    hwm: nat,
    running: bool,
    issued: nat,
    senders: seq<Sender>,
    queue: seq<nat>,
    processor: Processor,
    delivered: seq<nat>,
    processed: seq<nat>,
    enqueued: seq<nat>,
    failed: seq<nat>)

  function Start(hwm: nat, senders: nat): State {
    State(hwm, true, 0, seq(senders, _ => Idle), [], Waiting, [], [], [], [])
  }

  function Limit(s: State): nat { if s.hwm > 1 then s.hwm else 1 }

  datatype Step =
    | Call(i: nat)
    | SentDirectly(i: nat)    // a connection took the message
    | GoToQueue(i: nat)       // no connection did, or none is left to try
    | CallFails(i: nat)       // an error is returned
    | SeesRoom(i: nat)        // the queue was below the limit when looked at
    | Pushes(i: nat)
    | Pops                    // the processor takes the first message
    | Delivers                // a connection took it
    | Requeues                // none did: it goes back to the front
    | Stops                   // the socket begins to close
    | RequeuesClosing         // found closing: pushed to the front once, and once more after

  predicate Enabled(s: State, t: Step) {
    match t
    case Call(i) => i < |s.senders| && s.senders[i].Idle? && s.running
    case SentDirectly(i) => i < |s.senders| && s.senders[i].Trying?
    case GoToQueue(i) => i < |s.senders| && s.senders[i].Trying?
    case CallFails(i) => i < |s.senders| && (s.senders[i].Trying? || s.senders[i].Queueing?)
    case SeesRoom(i) => i < |s.senders| && s.senders[i].Queueing? && s.running && |s.queue| < Limit(s)
    case Pushes(i) => i < |s.senders| && s.senders[i].Pushing?
    case Pops => s.processor.Waiting? && s.queue != []
    case Delivers => s.processor.Holding?
    case Requeues => s.processor.Holding?
    case Stops => s.running
    case RequeuesClosing => s.processor.Holding? && !s.running
  }

  function Next(s: State, t: Step): State
    requires Enabled(s, t)
  {
    match t
    case Call(i) => s.(senders := s.senders[i := Trying(s.issued)], issued := s.issued + 1)
    case SentDirectly(i) => s.(senders := s.senders[i := Idle], delivered := s.delivered + [s.senders[i].msg])
    case GoToQueue(i) => s.(senders := s.senders[i := Queueing(s.senders[i].msg)])
    case CallFails(i) => s.(senders := s.senders[i := Idle], failed := s.failed + [s.senders[i].msg])
    case SeesRoom(i) => s.(senders := s.senders[i := Pushing(s.senders[i].msg)])
    case Pushes(i) =>
      var m := s.senders[i].msg;
      s.(senders := s.senders[i := Idle], queue := s.queue + [m], enqueued := s.enqueued + [m])
    case Pops => s.(queue := s.queue[1..], processor := Holding(s.queue[0]))
    case Delivers =>
      var m := s.processor.msg;
      s.(processor := Waiting, delivered := s.delivered + [m], processed := s.processed + [m])
    case Requeues => s.(processor := Waiting, queue := [s.processor.msg] + s.queue)
    case Stops => s.(running := false)
    case RequeuesClosing => s.(processor := Waiting, queue := [s.processor.msg, s.processor.msg] + s.queue)
  }

  predicate IsRun(s: State, ts: seq<Step>)
    decreases |ts|
  {
    ts == [] || (Enabled(s, ts[0]) && IsRun(Next(s, ts[0]), ts[1..]))
  }

  function Run(s: State, ts: seq<Step>): State
    requires IsRun(s, ts)
    decreases |ts|
  {
    if ts == [] then s else Run(Next(s, ts[0]), ts[1..])
  }

  // --- Where the messages are ---

  function HasIt(x: Sender, m: nat): nat { if !x.Idle? && x.msg == m then 1 else 0 }

  function WithSenders(ss: seq<Sender>, m: nat): nat {
    if ss == [] then 0 else WithSenders(ss[..|ss| - 1], m) + HasIt(ss[|ss| - 1], m)
  }

  function Held(s: State): seq<nat> { if s.processor.Holding? then [s.processor.msg] else [] }

  function Count(q: seq<nat>, m: nat): nat { multiset(q)[m] }

  /** How often a message is anywhere: delivered, queued, held, with a sender, or failed. */
  function Places(s: State, m: nat): nat {
    Count(s.delivered, m) + Count(s.queue, m) + Count(Held(s), m) + WithSenders(s.senders, m) + Count(s.failed, m)
  }

  lemma CountJoin(p: seq<nat>, q: seq<nat>, m: nat)
    ensures Count(p + q, m) == Count(p, m) + Count(q, m)
  {
  }

  lemma CountOne(x: nat, m: nat)
    ensures Count([x], m) == (if x == m then 1 else 0)
  {
  }

  function CountPushing(ss: seq<Sender>): nat {
    if ss == [] then 0 else CountPushing(ss[..|ss| - 1]) + (if ss[|ss| - 1].Pushing? then 1 else 0)
  }

  lemma {:induction false} UpdateSender(ss: seq<Sender>, i: nat, x: Sender, m: nat)
    requires i < |ss|
    ensures WithSenders(ss[i := x], m) + HasIt(ss[i], m) == WithSenders(ss, m) + HasIt(x, m)
  {
    var n := |ss| - 1;
    if i == n {
      assert ss[i := x][..n] == ss[..n];
    } else {
      assert ss[i := x][..n] == ss[..n][i := x];
      UpdateSender(ss[..n], i, x, m);
    }
  }

  lemma {:induction false} UpdatePushing(ss: seq<Sender>, i: nat, x: Sender)
    requires i < |ss|
    ensures CountPushing(ss[i := x]) + (if ss[i].Pushing? then 1 else 0) == CountPushing(ss) + (if x.Pushing? then 1 else 0)
  {
    var n := |ss| - 1;
    if i == n {
      assert ss[i := x][..n] == ss[..n];
    } else {
      assert ss[i := x][..n] == ss[..n][i := x];
      UpdatePushing(ss[..n], i, x);
    }
  }

  lemma {:induction false} PushingAtMost(ss: seq<Sender>)
    ensures CountPushing(ss) <= |ss|
    ensures (exists i :: 0 <= i < |ss| && !ss[i].Pushing?) ==> CountPushing(ss) < |ss|
  {
    if ss != [] {
      var n := |ss| - 1;
      PushingAtMost(ss[..n]);
      if i :| 0 <= i < |ss| && !ss[i].Pushing? {
        if i < n {
          assert !ss[..n][i].Pushing?;
        }
      }
    }
  }

  /** Each call's message is in exactly one place; what the processor has delivered, holds and has
      before it is the order of the pushes; and the queue is bounded. */
  ghost predicate Orderly(s: State) {
    && (forall m: nat :: Places(s, m) == (if m < s.issued then 1 else 0))
    && s.processed + Held(s) + s.queue == s.enqueued
    && |s.queue| + |Held(s)| + CountPushing(s.senders) <= Limit(s) + |s.senders|
  }

  lemma SenderPlaces(s: State, t: Step, m: nat)
    requires Enabled(s, t) && (t.Call? || t.SentDirectly? || t.GoToQueue? || t.CallFails? || t.SeesRoom? || t.Pushes?)
    ensures Places(Next(s, t), m) == Places(s, m) + (if t.Call? && m == s.issued then 1 else 0)
  {
    var u := Next(s, t);
    UpdateSender(s.senders, t.i, u.senders[t.i], m);
    if t.SentDirectly? || t.CallFails? || t.Pushes? {
      var x := s.senders[t.i].msg;
      CountOne(x, m);
      CountJoin(if t.SentDirectly? then s.delivered else if t.CallFails? then s.failed else s.queue, [x], m);
    }
  }

  lemma CountHead(q: seq<nat>, m: nat)
    requires q != []
    ensures Count(q, m) == Count([q[0]], m) + Count(q[1..], m)
  {
    CountJoin([q[0]], q[1..], m);
    assert q == [q[0]] + q[1..];
  }

  lemma PopsPlaces(s: State, m: nat)
    requires Enabled(s, Pops)
    ensures Places(Next(s, Pops), m) == Places(s, m)
  {
    CountHead(s.queue, m);
  }

  lemma HeldPlaces(s: State, t: Step, m: nat)
    requires Enabled(s, t) && (t.Delivers? || t.Requeues?)
    ensures Places(Next(s, t), m) == Places(s, m)
  {
  }

  /** A step moves one message, or brings in a new one. */
  lemma PlacesStep(s: State, t: Step, m: nat)
    requires Enabled(s, t) && !t.RequeuesClosing?
    ensures Places(Next(s, t), m) == Places(s, m) + (if t.Call? && m == s.issued then 1 else 0)
  {
    if t.Pops? {
      PopsPlaces(s, m);
    } else if t.Delivers? || t.Requeues? {
      HeldPlaces(s, t, m);
    } else if !t.Stops? {
      SenderPlaces(s, t, m);
    }
  }

  /** The processor's line of messages only ever gets longer at its end. */
  lemma LineStep(s: State, t: Step)
    requires Enabled(s, t) && !t.RequeuesClosing? && s.processed + Held(s) + s.queue == s.enqueued
    ensures var u := Next(s, t); u.processed + Held(u) + u.queue == u.enqueued
  {
  }

  lemma BoundStep(s: State, t: Step)
    requires Enabled(s, t) && !t.RequeuesClosing?
    requires |s.queue| + |Held(s)| + CountPushing(s.senders) <= Limit(s) + |s.senders|
    ensures var u := Next(s, t);
            |u.queue| + |Held(u)| + CountPushing(u.senders) <= Limit(u) + |u.senders| && |u.senders| == |s.senders| && u.hwm == s.hwm
  {
    var u := Next(s, t);
    if t.Call? || t.SentDirectly? || t.GoToQueue? || t.CallFails? || t.SeesRoom? || t.Pushes? {
      UpdatePushing(s.senders, t.i, u.senders[t.i]);
      if t.SeesRoom? {
        assert !s.senders[t.i].Pushing?;
        PushingAtMost(s.senders);
      }
    }
  }

  /** Every step but the one that finds the socket closing keeps order. */
  lemma StepKeeps(s: State, t: Step)
    requires Orderly(s) && Enabled(s, t) && !t.RequeuesClosing?
    ensures Orderly(Next(s, t)) && |Next(s, t).senders| == |s.senders| && Next(s, t).hwm == s.hwm
  {
    var u := Next(s, t);
    forall m: nat ensures Places(u, m) == (if m < u.issued then 1 else 0) {
      PlacesStep(s, t, m);
      assert Places(s, m) == (if m < s.issued then 1 else 0);
    }
    LineStep(s, t);
    BoundStep(s, t);
  }

  lemma {:induction false} IdleSenders(ss: seq<Sender>, m: nat)
    requires forall i :: 0 <= i < |ss| ==> ss[i].Idle?
    ensures WithSenders(ss, m) == 0 && CountPushing(ss) == 0
  {
    if ss != [] {
      IdleSenders(ss[..|ss| - 1], m);
    }
  }

  lemma StartOrderly(hwm: nat, senders: nat)
    ensures Orderly(Start(hwm, senders))
  {
    var s := Start(hwm, senders);
    forall m: nat ensures Places(s, m) == 0 {
      IdleSenders(s.senders, m);
    }
    IdleSenders(s.senders, 0);
  }

  lemma {:induction false} RunKeeps(s: State, ts: seq<Step>)
    requires Orderly(s) && IsRun(s, ts) && RequeuesClosing !in ts
    ensures Orderly(Run(s, ts)) && |Run(s, ts).senders| == |s.senders| && Run(s, ts).hwm == s.hwm
    decreases |ts|
  {
    if ts != [] {
      StepKeeps(s, ts[0]);
      RunKeeps(Next(s, ts[0]), ts[1..]);
    }
  }

  /** The main result: in every run that does not go through the closing branch, each accepted
      message is in exactly one of delivered, queued, held and about to be pushed; the processor
      delivers in the order of the pushes; and queue and held message together stay within the
      high-water mark and the number of senders. */
  lemma DealerConserves(hwm: nat, senders: nat, ts: seq<Step>)
    requires IsRun(Start(hwm, senders), ts) && RequeuesClosing !in ts
    ensures var s := Run(Start(hwm, senders), ts);
            && Orderly(s)
            && |s.queue| + |Held(s)| <= (if hwm > 1 then hwm else 1) + senders
            && s.processed <= s.enqueued
  {
    StartOrderly(hwm, senders);
    RunKeeps(Start(hwm, senders), ts);
  }

  /** While the socket is running the closing branch cannot be taken. */
  lemma {:induction false} RunningAvoidsClosing(s: State, ts: seq<Step>)
    requires IsRun(s, ts) && Run(s, ts).running
    ensures s.running && RequeuesClosing !in ts
    decreases |ts|
  {
    if ts != [] {
      RunningAvoidsClosing(Next(s, ts[0]), ts[1..]);
      assert ts == [ts[0]] + ts[1..];
    }
  }

  /** The closing branch leaves the held message in one place more than before. */
  lemma ClosingPlaces(s: State, m: nat)
    requires Enabled(s, RequeuesClosing)
    ensures Places(Next(s, RequeuesClosing), m) == Places(s, m) + (if m == s.processor.msg then 1 else 0)
  {
    var h := s.processor.msg;
    CountJoin([h, h], s.queue, m);
    CountJoin([h], [h], m);
    assert [h] + [h] == [h, h];
    CountOne(h, m);
  }

  /** No step takes a message out of all its places. */
  lemma {:induction false} PlacesGrow(s: State, ts: seq<Step>, m: nat)
    requires IsRun(s, ts)
    ensures Places(s, m) <= Places(Run(s, ts), m)
    decreases |ts|
  {
    if ts != [] {
      if ts[0].RequeuesClosing? {
        ClosingPlaces(s, m);
      } else {
        PlacesStep(s, ts[0], m);
      }
      PlacesGrow(Next(s, ts[0]), ts[1..], m);
    }
  }

  lemma {:induction false} ClosingStays(s: State, ts: seq<Step>)
    requires Orderly(s) && IsRun(s, ts) && RequeuesClosing in ts
    ensures exists m: nat :: Places(Run(s, ts), m) > 1
    decreases |ts|
  {
    if ts[0].RequeuesClosing? {
      var m := s.processor.msg;
      ClosingPlaces(s, m);
      CountOne(m, m);
      assert Count(Held(s), m) == 1;
      PlacesGrow(Next(s, ts[0]), ts[1..], m);
      assert Places(Run(s, ts), m) > 1;
    } else {
      assert ts == [ts[0]] + ts[1..];
      StepKeeps(s, ts[0]);
      ClosingStays(Next(s, ts[0]), ts[1..]);
      var m: nat :| Places(Run(Next(s, ts[0]), ts[1..]), m) > 1;
      assert Places(Run(s, ts), m) > 1;
    }
  }

  /** The exact condition, over every run: each message is in one place, in order and within the
      bound, if and only if the processor never put back a message with the socket closing. That
      branch pushes the message twice, and the copy is never taken back. */
  lemma OrderlyIff(hwm: nat, senders: nat, ts: seq<Step>)
    requires IsRun(Start(hwm, senders), ts)
    ensures Orderly(Run(Start(hwm, senders), ts)) <==> RequeuesClosing !in ts
  {
    StartOrderly(hwm, senders);
    if RequeuesClosing in ts {
      ClosingStays(Start(hwm, senders), ts);
      var s := Run(Start(hwm, senders), ts);
      var m: nat :| Places(s, m) > 1;
      assert Places(s, m) != (if m < s.issued then 1 else 0);
    } else {
      RunKeeps(Start(hwm, senders), ts);
    }
  }

  // --- Runs that reach the branch and the bound ---

  lemma {:induction false} Joined(s: State, p: seq<Step>, q: seq<Step>)
    requires IsRun(s, p) && IsRun(Run(s, p), q)
    ensures IsRun(s, p + q) && Run(s, p + q) == Run(Run(s, p), q)
    decreases |p|
  {
    if p == [] {
      assert p + q == q;
    } else {
      assert (p + q)[1..] == p[1..] + q;
      Joined(Next(s, p[0]), p[1..], q);
    }
  }

  lemma First(s: State, t: Step, ts: seq<Step>)
    requires Enabled(s, t) && IsRun(Next(s, t), ts)
    ensures IsRun(s, [t] + ts) && Run(s, [t] + ts) == Run(Next(s, t), ts)
  {
    assert ([t] + ts)[1..] == ts;
  }

  function OneCall(i: nat): seq<Step> { [Call(i), GoToQueue(i), SeesRoom(i), Pushes(i)] }

  function Queued(s: State): State {
    s.(issued := s.issued + 1, queue := s.queue + [s.issued], enqueued := s.enqueued + [s.issued])
  }

  /** One message through a queue with room, by an idle sender. */
  lemma OneMessage(s: State, i: nat)
    requires s.running && i < |s.senders| && s.senders[i].Idle? && |s.queue| < Limit(s)
    ensures IsRun(s, OneCall(i)) && Run(s, OneCall(i)) == Queued(s)
  {
    var a := Next(s, Call(i));
    var b := Next(a, GoToQueue(i));
    var c := Next(b, SeesRoom(i));
    var d := Next(c, Pushes(i));
    assert d.senders == s.senders && d == Queued(s);
    First(c, Pushes(i), []);
    First(b, SeesRoom(i), [Pushes(i)] + []);
    First(a, GoToQueue(i), [SeesRoom(i)] + ([Pushes(i)] + []));
    First(s, Call(i), [GoToQueue(i)] + ([SeesRoom(i)] + ([Pushes(i)] + [])));
    assert OneCall(i) == [Call(i)] + ([GoToQueue(i)] + ([SeesRoom(i)] + ([Pushes(i)] + [])));
  }

  /** A real run through the closing branch: whatever the mark and the number of senders, a single
      message that the processor holds when the socket stops ends up in the queue twice. */
  lemma ClosingReached(hwm: nat, senders: nat)
    requires senders > 0
    ensures var ts := OneCall(0) + [Pops, Stops, RequeuesClosing];
            IsRun(Start(hwm, senders), ts) && Run(Start(hwm, senders), ts).queue == [0, 0]
  {
    var s := Start(hwm, senders);
    OneMessage(s, 0);
    var q := Queued(s);
    var ts := [Pops, Stops, RequeuesClosing];
    First(Next(Next(q, Pops), Stops), RequeuesClosing, []);
    First(Next(q, Pops), Stops, [RequeuesClosing] + []);
    First(q, Pops, [Stops] + ([RequeuesClosing] + []));
    assert ts == [Pops] + ([Stops] + ([RequeuesClosing] + []));
    Joined(s, OneCall(0), ts);
  }

  lemma {:induction false} FillsQueue(s: State, n: nat) returns (ts: seq<Step>)
    requires s.running && s.senders != [] && (forall i :: 0 <= i < |s.senders| ==> s.senders[i].Idle?)
    requires |s.queue| + n <= Limit(s)
    ensures IsRun(s, ts) && RequeuesClosing !in ts
    ensures var t := Run(s, ts);
            t.running && t.senders == s.senders && t.hwm == s.hwm && t.processor == s.processor && |t.queue| == |s.queue| + n
    decreases n
  {
    if n == 0 {
      ts := [];
    } else {
      OneMessage(s, 0);
      var rest := FillsQueue(Queued(s), n - 1);
      Joined(s, OneCall(0), rest);
      ts := OneCall(0) + rest;
    }
  }

  /** Senders from `i` on have not begun; those before it have seen room and not yet pushed. */
  predicate Seen(s: State, i: nat) {
    && i <= |s.senders|
    && (forall j :: 0 <= j < i ==> s.senders[j].Pushing?)
    && (forall j :: i <= j < |s.senders| ==> s.senders[j].Idle?)
  }

  /** All senders see the same free place before any of them takes it. */
  lemma {:induction false} AllSee(s: State, i: nat) returns (ts: seq<Step>)
    requires s.running && Seen(s, i) && |s.queue| < Limit(s)
    ensures IsRun(s, ts) && RequeuesClosing !in ts
    ensures var t := Run(s, ts);
            Seen(t, |t.senders|) && |t.senders| == |s.senders| && t.queue == s.queue && t.processor == s.processor
    decreases |s.senders| - i
  {
    if i == |s.senders| {
      ts := [];
    } else {
      var one := [Call(i), GoToQueue(i), SeesRoom(i)];
      var b := Next(Next(s, Call(i)), GoToQueue(i));
      var c := Next(b, SeesRoom(i));
      First(b, SeesRoom(i), []);
      First(Next(s, Call(i)), GoToQueue(i), [SeesRoom(i)]);
      First(s, Call(i), [GoToQueue(i), SeesRoom(i)]);
      assert one == [Call(i)] + ([GoToQueue(i)] + ([SeesRoom(i)] + []));
      var rest := AllSee(c, i + 1);
      Joined(s, one, rest);
      ts := one + rest;
    }
  }

  /** And each of them pushes. */
  lemma {:induction false} AllPush(s: State, i: nat) returns (ts: seq<Step>)
    requires i <= |s.senders| && (forall j :: i <= j < |s.senders| ==> s.senders[j].Pushing?)
    ensures IsRun(s, ts) && RequeuesClosing !in ts
    ensures var t := Run(s, ts); |t.queue| == |s.queue| + |s.senders| - i && t.processor == s.processor
    decreases |s.senders| - i
  {
    if i == |s.senders| {
      ts := [];
    } else {
      var one := [Pushes(i)];
      assert one[1..] == [];
      var rest := AllPush(Next(s, Pushes(i)), i + 1);
      Joined(s, one, rest);
      ts := one + rest;
    }
  }

  /** The bound is reached for every mark and every number of senders. */
  lemma BoundIsTight(hwm: nat, senders: nat) returns (ts: seq<Step>)
    requires senders > 0
    ensures IsRun(Start(hwm, senders), ts) && RequeuesClosing !in ts
    ensures var s := Run(Start(hwm, senders), ts);
            |s.queue| + |Held(s)| == (if hwm > 1 then hwm else 1) + senders
  {
    var s := Start(hwm, senders);
    var first := FillsQueue(s, Limit(s));
    var full := Run(s, first);
    var pop := [Pops];
    assert pop[1..] == [];
    var popped := Next(full, Pops);
    assert IsRun(full, pop) && Run(full, pop) == popped;
    var second := AllSee(popped, 0);
    var seen := Run(popped, second);
    var third := AllPush(seen, 0);
    Joined(popped, second, third);
    Joined(full, pop, second + third);
    Joined(s, first, pop + (second + third));
    ts := first + (pop + (second + third));
  }
}
