/** Streams that begin in plain frames and go on in encrypted blocks: what has been written to one,
    what has been read from one, and where the NOISE_XX mechanism stands in between. */
module SecureStreams {
  import opened Bytes
  import opened Frames
  import opened Framers
  import opened Commands
  import opened NoiseXx
  import opened Handler

  // --- What has been written ---

  /** A stream of sends taken apart: greeting octets, plain command frames, encrypted octets. It is
      `ok` when they come in this order and the frames are encoded as they should be. */
  datatype Layout = Layout(greeting: Octets, tokens: seq<Msg>, secured: Octets, ok: bool)

  function Extend(l: Layout, b: Blueprint): Layout {
    if !b.Send? then l
    else if b.secure then l.(secured := l.secured + b.data)
    else
      match b.content
      case Control => l.(greeting := l.greeting + b.data, ok := l.ok && l.tokens == [] && l.secured == [])
      case CommandFrame(m) => l.(tokens := l.tokens + [m], ok := l.ok && l.secured == [] && b.data == EncodeFrame(m))
      case AppParts(_) => l.(ok := false)
  }

  function LayoutOf(ops: seq<Blueprint>): Layout {
    if ops == [] then Layout([], [], [], true) else Extend(LayoutOf(ops[..|ops| - 1]), ops[|ops| - 1])
  }

  function OctetsOf(l: Layout): Octets { l.greeting + EncodeAll(l.tokens) + l.secured }

  lemma Join3(a: Octets, b: Octets, c: Octets, d: Octets)
    ensures (a + b + c) + d == a + b + (c + d)
    ensures b == [] && c == [] ==> (a + b + c) + d == (a + d) + b + c
    ensures c == [] ==> (a + b + c) + d == a + (b + d) + c
  {
  }

  lemma ExtendOctets(l: Layout, b: Blueprint)
    requires Extend(l, b).ok
    ensures OctetsOf(Extend(l, b)) == OctetsOf(l) + (if b.Send? then b.data else [])
  {
    if b.Send? {
      Join3(l.greeting, EncodeAll(l.tokens), l.secured, b.data);
      if !b.secure && b.content.CommandFrame? {
        EncodeAllSnoc(l.tokens, b.content.msg);
      }
    }
  }

  /** A well-ordered layout loses nothing of what was sent. */
  lemma {:induction false} LayoutIsWire(ops: seq<Blueprint>)
    requires LayoutOf(ops).ok
    ensures OctetsOf(LayoutOf(ops)) == Wire(ops)
  {
    if ops != [] {
      LayoutIsWire(ops[..|ops| - 1]);
      ExtendOctets(LayoutOf(ops[..|ops| - 1]), ops[|ops| - 1]);
    }
  }

  type Reading = seq<Blueprint> -> Layout

  /** `lay` reads sends one after another, as `LayoutOf` does. */
  ghost predicate Lays(lay: Reading) {
    forall ops, b :: lay(ops + [b]) == Extend(lay(ops), b)
  }

  lemma LayoutLays()
    ensures Lays(LayoutOf)
  {
  }

  /** Later layouts continue earlier ones. */
  predicate Grows(l: Layout, m: Layout) {
    OctetsOf(l) <= OctetsOf(m) && l.tokens <= m.tokens
  }

  lemma ExtendGrows(l: Layout, b: Blueprint)
    requires Extend(l, b).ok
    ensures Grows(l, Extend(l, b))
  {
    ExtendOctets(l, b);
  }

  // --- The mechanism between rounds of the phase loop ---

  /** Tokens an end writes, and reads, in a whole handshake. */
  function Writes(isServer: bool): nat { if isServer then 1 else 2 }

  function Reads(isServer: bool): nat { if isServer then 2 else 1 }

  /** An unfinished mechanism that owes no token and has written `sent` and read `got`. */
  predicate Midway(n: NoiseMech, isServer: bool, sent: nat, got: nat) {
    && n.isServer == isServer && (n.status == Initializing || n.status == Handshaking)
    && n.pending.None? && n.transport.None?
    && n.state.Some? && n.state.value.initiator == !isServer
    && |n.state.value.transcript| == sent + got
    && (if isServer then sent == got && got <= 1 else got == 0 && sent <= 1)
  }

  /** A finished one. */
  predicate Over(n: NoiseMech) {
    n.status == Status.Ready && n.pending.None? && NoiseFramer(n).Some?
  }

  lemma AskMidway(n: NoiseMech, isServer: bool, sent: nat, got: nat)
    requires Midway(n, isServer, sent, got)
    ensures var p := ProduceNoise(n);
            && p.ok && Midway(p.mech, isServer, if isServer then sent else 1, got)
            && p.token.Some? == (!isServer && sent == 0)
  {
  }

  /** After a token from the peer the mechanism has failed, or answers and is midway or over. */
  lemma GiveMidway(n: NoiseMech, isServer: bool, got: nat, token: Octets)
    requires Midway(n, isServer, if isServer then got else 1, got)
    ensures var q := ProcessNoise(n, token);
            q.action.Refused? ||
            (var p := ProduceNoise(q.mech);
             !p.ok ||
             (&& p.token.Some? == (!isServer || got == 0)
              && (if isServer && got == 0 then Midway(p.mech, isServer, 1, 1) else Over(p.mech))))
  {
  }

  // --- What has been read ---

  /** Opening `n` blocks from the front of `net`: the plaintexts so far and the octets left. */
  function Open(decrypt: (seq<Octets>, Octets) -> Option<Octets>, sofar: seq<Octets>, net: Octets, n: nat)
    : Option<(seq<Octets>, Octets)>
    decreases n
  {
    if n == 0 then Some((sofar, net))
    else
      match FirstBlock(net)
      case None => None
      case Some(block) =>
        match decrypt(sofar, block.body)
        case None => None
        case Some(plain) => Open(decrypt, sofar + [plain], block.rest, n - 1)
  }

  lemma {:induction false} OpenMore(decrypt: (seq<Octets>, Octets) -> Option<Octets>, sofar: seq<Octets>, net: Octets, n: nat, b: Octets)
    requires Open(decrypt, sofar, net, n).Some?
    ensures var o := Open(decrypt, sofar, net, n).value; Open(decrypt, sofar, net + b, n) == Some((o.0, o.1 + b))
    decreases n
  {
    if n > 0 {
      FirstBlockResumes(net, b);
      var block := FirstBlock(net).value;
      OpenMore(decrypt, sofar + [decrypt(sofar, block.body).value], block.rest, n - 1, b);
    }
  }

  lemma {:induction false} OpenNext(decrypt: (seq<Octets>, Octets) -> Option<Octets>, sofar: seq<Octets>, net: Octets, n: nat)
    requires Open(decrypt, sofar, net, n).Some?
    ensures var o := Open(decrypt, sofar, net, n).value; Open(decrypt, sofar, net, n + 1) == Open(decrypt, o.0, o.1, 1)
    decreases n
  {
    if n > 0 {
      var block := FirstBlock(net).value;
      OpenNext(decrypt, sofar + [decrypt(sofar, block.body).value], block.rest, n - 1);
    }
  }

  /** The secure framer has opened whole blocks from the front of `octets`, and `net` is the rest. */
  ghost predicate OpenedFrom(f: Framer, net: Octets, octets: Octets) {
    f.Secure? && Open(f.cipher.decrypt, [], octets, |f.cipher.received|) == Some((f.cipher.received, net))
  }

  lemma OpenedMore(f: Framer, net: Octets, octets: Octets, b: Octets)
    requires OpenedFrom(f, net, octets)
    ensures OpenedFrom(f, net + b, octets + b)
  {
    OpenMore(f.cipher.decrypt, [], octets, |f.cipher.received|, b);
  }

  /** Reading opens further blocks and nothing else. */
  lemma {:induction false} ReadOpens(f: Framer, max: int, net: Octets, octets: Octets)
    requires OpenedFrom(f, net, octets)
    ensures var o := TryRead(f, max, net); o.res.Failed? || OpenedFrom(o.framer, o.net, octets)
    decreases |net|
  {
    var c := f.cipher;
    var o := Parse(f.parser, max, f.decrypted);
    if o.res.NeedMore? && FirstBlock(net).Some? {
      var block := FirstBlock(net).value;
      var plain := c.decrypt(c.received, block.body);
      if plain.Some? {
        var c' := c.(received := c.received + [plain.value]);
        OpenNext(c.decrypt, [], octets, |c.received|);
        assert Open(c.decrypt, c'.received, block.rest, 0) == Some((c'.received, block.rest));
        assert |c'.received| == |c.received| + 1;
        ReadOpens(Secure(c', o.state, o.rest + plain.value), max, block.rest, octets);
      }
    }
  }

  /** A write leaves what was opened alone. */
  lemma WriteOpens(f: Framer, ms: seq<Msg>, net: Octets, octets: Octets)
    requires OpenedFrom(f, net, octets)
    ensures Write(f, ms).Some? ==> OpenedFrom(Write(f, ms).value.framer, net, octets)
  {
  }

  /** A plain parser with `net` before it stands at the beginning of `left`. */
  predicate StandsAt(parser: ParserState, max: int, net: Octets, left: Octets) {
    Parse(ReadHeader, max, left) == Parse(parser, max, net)
  }

  lemma StandsMore(parser: ParserState, max: int, net: Octets, left: Octets, b: Octets)
    requires StandsAt(parser, max, net, left)
    ensures StandsAt(parser, max, net + b, left + b)
  {
    ParseResumes(ReadHeader, max, left, b);
    ParseResumes(parser, max, net, b);
  }

  /** Whatever frame the parser finds is the one that was written there. */
  lemma FindsFrame(parser: ParserState, max: int, net: Octets, left: Octets, more: Octets, t: Msg, rest: Octets)
    requires StandsAt(parser, max, net, left) && Sized(t) && left + more == EncodeFrame(t) + rest
    requires Parse(parser, max, net).res.Got?
    ensures var o := Parse(parser, max, net);
            o.res == Got(t) && o.state == ReadHeader && left == EncodeFrame(t) + o.rest && o.rest + more == rest
  {
    var o := Parse(parser, max, net);
    ParseResumes(ReadHeader, max, left, more);
    if Admits(max, |t.data|) {
      FrameRoundTrip(t, max, rest);
      SameTail(left, more, EncodeFrame(t), o.rest);
    } else {
      OversizeRefused(t, max, rest);
    }
  }

  lemma SameTail(left: Octets, more: Octets, frame: Octets, r: Octets)
    requires left + more == frame + (r + more)
    ensures left == frame + r
  {
    assert |left| == |frame| + |r|;
    assert left == (left + more)[..|left|];
    assert frame + r == (frame + (r + more))[..|left|];
  }
}
