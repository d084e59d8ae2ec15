/** From one application to the other: messages submitted to a handler in the data phase, read by
    its peer in pieces of any size. */
module EndToEnd {
  import opened Bytes
  import opened Frames
  import opened Framers
  import opened Commands
  import opened Handler
  import opened HandlerSteps
  import opened Confluence
  import opened NullRounds
  import opened TwoSides
  import opened Network

  // --- Sending ---

  function SubmitAll(s: H, batches: seq<seq<Msg>>): H
    decreases |batches|
  {
    if batches == [] then s else SubmitAll(Submit(s, batches[0]), batches[1..])
  }

  lemma WireMore(ops: seq<Blueprint>, b: Blueprint)
    ensures Wire(ops + [b]) == Wire(ops) + (if b.Send? then b.data else [])
  {
  }

  lemma SubmitWrites(s: H, parts: seq<Msg>)
    requires s.phase == DataPhase && s.queue == [] && Write(s.framer, parts).Some?
    ensures var t := Submit(s, parts);
            var w := Write(s.framer, parts).value;
            t.phase == DataPhase && t.queue == [] && t.framer == w.framer && Wire(t.ops) == Wire(s.ops) + w.wire
  {
  }

  lemma Append3(a: Octets, b: Octets, c: Octets)
    ensures (a + b) + c == a + (b + c)
  {
  }

  /** What a handler in the data phase sends for a list of messages is what its framer writes. */
  lemma {:induction false} SubmitAllWrites(s: H, batches: seq<seq<Msg>>)
    requires s.phase == DataPhase && s.queue == [] && WriteBatches(s.framer, batches).Some?
    ensures var t := SubmitAll(s, batches);
            var out := WriteBatches(s.framer, batches).value;
            t.framer == out.framer && t.queue == [] && Wire(t.ops) == Wire(s.ops) + out.wire
    decreases |batches|
  {
    if batches != [] {
      SubmitWrites(s, batches[0]);
      var first := Write(s.framer, batches[0]).value;
      SubmitAllWrites(Submit(s, batches[0]), batches[1..]);
      Append3(Wire(s.ops), first.wire, WriteBatches(first.framer, batches[1..]).value.wire);
    } else {
      assert Wire(s.ops) + [] == Wire(s.ops);
    }
  }

  // --- Receiving ---

  function DataEvents(ms: seq<Msg>): seq<UpEvent> {
    if ms == [] then [] else [Data(ms[0])] + DataEvents(ms[1..])
  }

  predicate NoCommands(ms: seq<Msg>) { forall i :: 0 <= i < |ms| ==> !ms[i].command }

  /** `s` after reading: the framer and the octets left, and every frame told upstream. */
  function Told(s: H, r: AllOut): H
    requires |r.msgs| <= s.room
  {
    s.(framer := r.framer, acc := r.net, room := s.room - |r.msgs|, events := s.events + DataEvents(r.msgs))
  }

  lemma ToldOne(s: H, m: Msg, o: ReadOut, q: AllOut)
    requires |q.msgs| + 1 <= s.room && !m.command
    ensures var t := HandleFrame(Take(s, o), m);
            t.Next? && t.s.room == s.room - 1 && t.s.cfg == s.cfg && t.s.framer == o.framer && t.s.acc == o.net
            && Told(t.s, q) == Told(s, q.(msgs := [m] + q.msgs))
  {
  }

  /** The data phase tells its application exactly the frames its framer reads, in order. */
  lemma {:induction false} DataLoopTells(s: H, progress: bool)
    requires var r := ReadAll(s.framer, s.cfg.maxMsgSize, s.acc);
             !r.failed && NoCommands(r.msgs) && |r.msgs| <= s.room
    ensures var f := DataLoop(s, progress); f.Next? && f.s == Told(s, ReadAll(s.framer, s.cfg.maxMsgSize, s.acc))
    decreases |s.acc|, DecryptedLeft(s.framer), BodyPending(s.framer)
  {
    TryReadConsumes(s.framer, s.cfg.maxMsgSize, s.acc);
    var o := TryRead(s.framer, s.cfg.maxMsgSize, s.acc);
    if o.res.Frame? {
      var m := o.res.msg;
      var q := ReadAll(o.framer, s.cfg.maxMsgSize, o.net);
      var r := ReadAll(s.framer, s.cfg.maxMsgSize, s.acc);
      assert r.msgs == [m] + q.msgs && r.msgs[0] == m;
      forall i | 0 <= i < |q.msgs| ensures !q.msgs[i].command {
        assert r.msgs[i + 1] == q.msgs[i];
      }
      ToldOne(s, m, o, q);
      DataLoopTells(HandleFrame(Take(s, o), m).s, true);
    } else {
      assert s.events + [] == s.events;
    }
  }

  lemma ReadTells(s: H, chunk: Octets, t: Clock)
    requires s.phase == DataPhase && chunk != []
    requires var r := ReadAll(s.framer, s.cfg.maxMsgSize, s.acc + chunk);
             !r.failed && NoCommands(r.msgs) && |r.msgs| <= s.room
    ensures ReadData(s, chunk, t) == Told(s, ReadAll(s.framer, s.cfg.maxMsgSize, s.acc + chunk))
  {
    var x := s.(acc := s.acc + chunk);
    DataLoopTells(x, false);
    ProcessData(x, t);
  }

  function ReadEach(s: H, chunks: seq<Octets>): H
    decreases |chunks|
  {
    if chunks == [] then s else ReadEach(ReadData(s, chunks[0], Never), chunks[1..])
  }

  lemma {:induction false} EventsConcat(a: seq<Msg>, b: seq<Msg>)
    ensures DataEvents(a + b) == DataEvents(a) + DataEvents(b)
  {
    if a == [] {
      assert a + b == b;
    } else {
      assert (a + b)[1..] == a[1..] + b;
      EventsConcat(a[1..], b);
    }
  }

  lemma ToldTwice(s: H, r: AllOut, q: AllOut)
    requires |r.msgs| + |q.msgs| <= s.room
    ensures Told(Told(s, r), q) == Told(s, q.(msgs := r.msgs + q.msgs))
  {
    EventsConcat(r.msgs, q.msgs);
    assert (s.events + DataEvents(r.msgs)) + DataEvents(q.msgs) == s.events + (DataEvents(r.msgs) + DataEvents(q.msgs));
  }

  lemma SplitCommands(a: seq<Msg>, b: seq<Msg>)
    requires NoCommands(a + b)
    ensures NoCommands(a) && NoCommands(b)
  {
    forall i | 0 <= i < |a| ensures !a[i].command {
      assert (a + b)[i] == a[i];
    }
    forall i | 0 <= i < |b| ensures !b[i].command {
      assert (a + b)[|a| + i] == b[i];
    }
  }

  /** Chunk by chunk, the same frames are told as from the whole stream. */
  lemma {:induction false} ChunksTell(s: H, chunks: seq<Octets>)
    requires s.phase == DataPhase && (forall i :: 0 <= i < |chunks| ==> chunks[i] != [])
    requires var r := ReadChunks(s.framer, s.cfg.maxMsgSize, s.acc, chunks);
             !r.failed && NoCommands(r.msgs) && |r.msgs| <= s.room
    ensures ReadEach(s, chunks) == Told(s, ReadChunks(s.framer, s.cfg.maxMsgSize, s.acc, chunks))
    decreases |chunks|
  {
    if chunks == [] {
      assert s.events + [] == s.events;
    } else {
      var r := ReadAll(s.framer, s.cfg.maxMsgSize, s.acc + chunks[0]);
      var q := ReadChunks(r.framer, s.cfg.maxMsgSize, r.net, chunks[1..]);
      SplitCommands(r.msgs, q.msgs);
      assert chunks[0] != [];
      ReadTells(s, chunks[0], Never);
      var t := Told(s, r);
      forall i | 0 <= i < |chunks[1..]| ensures chunks[1..][i] != [] {
        assert chunks[i + 1] != [];
      }
      ChunksTell(t, chunks[1..]);
      ToldTwice(s, r, q);
    }
  }

  /** The main result: with paired framers, plain or encrypted, whatever messages one application
      submits and however the octets arrive, the other application is told exactly their parts, in
      order, and nothing is left over. */
  lemma MessagesReachThePeer(w: H, r: H, batches: seq<seq<Msg>>, chunks: seq<Octets>)
    requires w.phase == DataPhase && w.queue == [] && r.phase == DataPhase && r.acc == []
    requires Paired(w.framer, r.framer) && WriteBatches(w.framer, batches).Some?
    requires Deliverable(r.cfg.maxMsgSize, Flatten(batches)) && NoCommands(Flatten(batches))
    requires |Flatten(batches)| <= r.room
    requires (forall i :: 0 <= i < |chunks| ==> chunks[i] != [])
    requires Wire(SubmitAll(w, batches).ops) == Wire(w.ops) + Concat(chunks)
    ensures var t := ReadEach(r, chunks);
            t.events == r.events + DataEvents(Flatten(batches)) && t.acc == [] && t.phase == DataPhase
  {
    SubmitAllWrites(w, batches);
    SameRest(Wire(w.ops), WriteBatches(w.framer, batches).value.wire, Concat(chunks));
    DeliveredThroughAnyChunks(w.framer, r.framer, r.cfg.maxMsgSize, batches, chunks);
    ChunksTell(r, chunks);
  }

  lemma SameRest(a: Octets, b: Octets, c: Octets)
    requires a + b == a + c
    ensures b == c
  {
    assert b == (a + b)[|a|..] && c == (a + c)[|a|..];
  }

  /** From the first octet on: two handlers joined in any run, and then any messages from the one
      in any chunks to the other, whose application is told of the handshake and of exactly their
      parts. */
  lemma HandshakeThenMessages(p: Party, q: Party, ms: seq<Move>, batches: seq<seq<Msg>>, chunks: seq<Octets>)
    requires Pair(p, q) && Runs(Handlers(), Opening(Facing(p, q), Facing(q, p)), ms)
    requires !exists m :: Possible(Handlers(), EndOf(Handlers(), Opening(Facing(p, q), Facing(q, p)), ms), m)
    requires Deliverable(q.cfg.maxMsgSize, Flatten(batches)) && NoCommands(Flatten(batches)) && |Flatten(batches)| < q.room
    requires forall i :: 0 <= i < |chunks| ==> chunks[i] != []
    requires var t := EndOf(Handlers(), Opening(Facing(p, q), Facing(q, p)), ms);
             Wire(SubmitAll(t.a, batches).ops) == Wire(t.a.ops) + Concat(chunks)
    ensures var t := EndOf(Handlers(), Opening(Facing(p, q), Facing(q, p)), ms);
            var u := ReadEach(t.b, chunks);
            && u.events == [HandshakeComplete(AnnouncedId(p))] + DataEvents(Flatten(batches))
            && u.acc == [] && u.phase == DataPhase
  {
    HandshakeCompletes(p, q, ms);
    var t := EndOf(Handlers(), Opening(Facing(p, q), Facing(q, p)), ms);
    PlainWrites(batches);
    MessagesReachThePeer(t.a, t.b, batches, chunks);
  }

  /** A plain framer writes whatever it is given. */
  lemma {:induction false} PlainWrites(batches: seq<seq<Msg>>)
    ensures WriteBatches(Plain(ReadHeader), batches).Some?
    decreases |batches|
  {
    if batches != [] {
      PlainWrites(batches[1..]);
    }
  }

  /** A PING is answered at once by a PONG with its context, framed as the session frames, and
      nothing is told upstream; only a framer that refuses the PONG ends the session. */
  lemma PingAnswered(s: H, ttl: nat, context: Octets)
    requires s.phase == DataPhase && s.version != Some(V2)
    ensures var f := HandleFrame(s, PingMsg(ttl, context));
            match Write(s.framer, [PongMsg(context)])
            case None => f == Fail(s, Internal)
            case Some(w) => f.Next? && f.s.events == s.events && f.s.framer == w.framer && Wire(f.s.ops) == Wire(s.ops) + w.wire
  {
    PingPongContext(ttl, context);
    var pong := PongMsg(context);
    if Write(s.framer, [pong]).Some? {
      var w := Write(s.framer, [pong]).value;
      WireMore(s.ops, Send(w.wire, CommandFrame(pong), w.framer.Secure?, false));
    }
  }

  lemma OneBatch(w: Framer, ms: seq<Msg>)
    requires Write(w, ms).Some?
    ensures Flatten([ms]) == ms && WriteBatches(w, [ms]) == Some(Batches(Write(w, ms).value.framer, Write(w, ms).value.wire))
  {
    var rest: seq<seq<Msg>> := [];
    assert [ms][1..] == rest;
    assert Flatten(rest) == [] && ms + [] == ms;
    var first := Write(w, ms).value;
    assert WriteBatches(first.framer, rest) == Some(Batches(first.framer, []));
    assert first.wire + [] == first.wire;
  }

  /** And the peer reads that PONG, with the context it sent. */
  lemma PongArrives(w: Framer, r: Framer, max: int, context: Octets)
    requires Paired(w, r) && Write(w, [PongMsg(context)]).Some? && Deliverable(max, [PongMsg(context)])
    ensures var got := ReadAll(r, max, Write(w, [PongMsg(context)]).value.wire);
            && |got.msgs| == 1 && CommandOf(got.msgs[0]) == Some(Pong(context)) && got.net == [] && !got.failed
  {
    var pong := PongMsg(context);
    var batches := [[pong]];
    OneBatch(w, [pong]);
    StreamRoundTrip(w, r, max, batches);
    PingPongContext(0, context);
  }
}
