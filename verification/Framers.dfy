/** The two framers of security/framer.rs: plain ZMTP frames, and ZMTP frames carried in
    length-prefixed encrypted blocks. */
module Framers {
  import opened Bytes
  import opened Frames

  /** A stateful cipher as a value. Each direction's state is the list of plaintexts already
      handled, so any deterministic state machine is covered. `None` is an error. */
  datatype Cipher = Cipher(
    encrypt: (seq<Octets>, Octets) -> Option<Octets>,
    decrypt: (seq<Octets>, Octets) -> Option<Octets>,
    sent: seq<Octets>,
    received: seq<Octets>)

  datatype Framer =
    | Plain(parser: ParserState)
    | Secure(cipher: Cipher, parser: ParserState, decrypted: Octets)

  datatype ReadRes = Nothing | Frame(msg: Msg) | Failed

  datatype ReadOut = ReadOut(framer: Framer, net: Octets, res: ReadRes)

  datatype Block = Block(body: Octets, rest: Octets)

  /** The first length-prefixed block of the stream, once it is all there. */
  function FirstBlock(net: Octets): (b: Option<Block>)
    ensures b.Some? ==> |b.value.rest| < |net|
  {
    if |net| < 2 then None
    else
      var len := FromBigEndian(net[..2]);
      if |net| < 2 + len then None
      else Some(Block(net[2..2 + len], net[2 + len..]))
  }

  /** One `try_read_msg` call. */
  function TryRead(f: Framer, max: int, net: Octets): (o: ReadOut)
    decreases |net|
  {
    match f
    case Plain(parser) =>
      var o := Parse(parser, max, net);
      ReadOut(Plain(o.state), o.rest, OfDecoded(o.res))
    case Secure(cipher, parser, decrypted) =>
      var o := Parse(parser, max, decrypted);
      var f' := Secure(cipher, o.state, o.rest);
      if !o.res.NeedMore? then ReadOut(f', net, OfDecoded(o.res))
      else
        match FirstBlock(net)
        case None => ReadOut(f', net, Nothing)
        case Some(block) =>
          match cipher.decrypt(cipher.received, block.body)
          case None => ReadOut(f', block.rest, Failed)
          case Some(plain) =>
            TryRead(Secure(cipher.(received := cipher.received + [plain]), o.state, o.rest + plain),
                    max, block.rest)
  }

  function OfDecoded(d: Decoded): ReadRes {
    match d
    case NeedMore => Nothing
    case Got(m) => Frame(m)
    case Oversize => Failed
  }

  /** A block as it is written: a two-octet length, then the ciphertext. */
  function SecureBlock(ciphertext: Octets): Octets {
    BigEndian(|ciphertext|, 2) + ciphertext
  }

  datatype Written = Written(framer: Framer, wire: Octets)

  /** One `write_msg_multipart` call; `None` when the cipher refuses. */
  function Write(f: Framer, ms: seq<Msg>): Option<Written> {
    match f
    case Plain(_) => Some(Written(f, EncodeAll(ms)))
    case Secure(cipher, parser, decrypted) =>
      match cipher.encrypt(cipher.sent, EncodeAll(ms))
      case None => None
      case Some(ct) =>
        Some(Written(f.(cipher := cipher.(sent := cipher.sent + [EncodeAll(ms)])), SecureBlock(ct)))
  }

  /** The encrypted framer as the source keeps it: an object owning its parser and its buffer of
      decrypted octets. */
  class LengthPrefixedFramer {
    var cipher: Cipher
    const parser: ManualParser
    var decrypted: Octets

    ghost function Value(): Framer
      reads this, parser
    {
      Secure(cipher, parser.state, decrypted)
    }

    constructor (cipher: Cipher, maxMsgSize: int)
      ensures Value() == Secure(cipher, ReadHeader, []) && parser.maxMsgSize == maxMsgSize
      ensures fresh(parser)
    {
      this.cipher := cipher;
      parser := new ManualParser(maxMsgSize);
      decrypted := [];
    }

    method TryReadMsg(network: Octets) returns (res: ReadRes, rest: Octets)
      modifies this, parser
      ensures ReadOut(Value(), rest, res) == TryRead(old(Value()), parser.maxMsgSize, network)
    {
      rest := network;
      while true
        invariant TryRead(Value(), parser.maxMsgSize, rest) == TryRead(old(Value()), parser.maxMsgSize, network)
        decreases |rest|
      {
        var got;
        got, decrypted := parser.DecodeFromBuffer(decrypted);
        if !got.NeedMore? {
          res := OfDecoded(got);
          return;
        }
        if |rest| < 2 {
          res := Nothing;
          return;
        }
        var len := FromBigEndian(rest[..2]);
        if |rest| < 2 + len {
          res := Nothing;
          return;
        }
        var block := rest[2..2 + len];
        rest := rest[2 + len..];
        var plain := cipher.decrypt(cipher.received, block);
        if plain.None? {
          res := Failed;
          return;
        }
        cipher := cipher.(received := cipher.received + [plain.value]);
        decrypted := decrypted + plain.value;
      }
    }

    method WriteMsgMultipart(ms: seq<Msg>) returns (wire: Option<Octets>)
      modifies this
      ensures match Write(old(Value()), ms)
              case None => wire.None? && Value() == old(Value())
              case Some(w) => wire == Some(w.wire) && Value() == w.framer
    {
      var plaintext := WriteFrames(ms);
      var ct := cipher.encrypt(cipher.sent, plaintext);
      if ct.None? {
        return None;
      }
      cipher := cipher.(sent := cipher.sent + [plaintext]);
      wire := Some(BigEndian(|ct.value|, 2) + ct.value);
    }
  }

  // --- Reading is insensitive to how the octets arrive ---

  lemma FirstBlockResumes(a: Octets, b: Octets)
    ensures FirstBlock(a).Some? ==>
              FirstBlock(a + b) == Some(Block(FirstBlock(a).value.body, FirstBlock(a).value.rest + b))
  {
    if FirstBlock(a).Some? {
      assert (a + b)[..2] == a[..2];
      var len := FromBigEndian(a[..2]);
      assert (a + b)[2..2 + len] == a[2..2 + len];
      assert (a + b)[2 + len..] == a[2 + len..] + b;
    }
  }

  lemma ParseStable(st: ParserState, max: int, src: Octets)
    ensures var o := Parse(st, max, src);
            o.res.NeedMore? ==> Parse(o.state, max, o.rest) == o
  {
  }

  /** Octets that arrive later only continue a read. */
  lemma {:induction false} TryReadResumes(f: Framer, max: int, a: Octets, b: Octets)
    ensures var o := TryRead(f, max, a);
            TryRead(f, max, a + b) ==
              if o.res.Nothing? then TryRead(o.framer, max, o.net + b)
              else ReadOut(o.framer, o.net + b, o.res)
    decreases |a|
  {
    match f
    case Plain(parser) =>
      ParseResumes(parser, max, a, b);
    case Secure(cipher, parser, decrypted) =>
      var o := Parse(parser, max, decrypted);
      if o.res.NeedMore? {
        ParseStable(parser, max, decrypted);
        FirstBlockResumes(a, b);
        if FirstBlock(a).Some? {
          var block := FirstBlock(a).value;
          var plain := cipher.decrypt(cipher.received, block.body);
          if plain.Some? {
            TryReadResumes(Secure(cipher.(received := cipher.received + [plain.value]), o.state, o.rest + plain.value),
                           max, block.rest, b);
          }
        }
      }
  }

  function DecryptedLeft(f: Framer): nat {
    if f.Secure? then |f.decrypted| else 0
  }

  function BodyPending(f: Framer): nat {
    if f.parser.ReadBody? then 1 else 0
  }

  /** Reading uses something up: network octets, else decrypted octets, else a pending header. */
  predicate Consumed(f: Framer, net: Octets, f': Framer, net': Octets) {
    || |net'| < |net|
    || (net' == net && DecryptedLeft(f') < DecryptedLeft(f))
    || (net' == net && DecryptedLeft(f') == DecryptedLeft(f) && BodyPending(f') < BodyPending(f))
  }

  lemma {:induction false} TryReadConsumes(f: Framer, max: int, net: Octets)
    ensures var o := TryRead(f, max, net);
            && |o.net| <= |net|
            && (f.Secure? <==> o.framer.Secure?)
            && (o.res.Frame? ==> Consumed(f, net, o.framer, o.net))
            && (o.res.Nothing? && o.framer.parser != f.parser && f.Plain? ==> |o.net| < |net|)
    decreases |net|
  {
    match f
    case Plain(parser) =>
      ParseConsumes(parser, max, net);
    case Secure(cipher, parser, decrypted) =>
      ParseConsumes(parser, max, decrypted);
      var o := Parse(parser, max, decrypted);
      if o.res.NeedMore? && FirstBlock(net).Some? {
        var block := FirstBlock(net).value;
        var plain := cipher.decrypt(cipher.received, block.body);
        if plain.Some? {
          TryReadConsumes(Secure(cipher.(received := cipher.received + [plain.value]), o.state, o.rest + plain.value),
                          max, block.rest);
        }
      }
  }

  // --- The read loop ---

  datatype AllOut = AllOut(framer: Framer, net: Octets, msgs: seq<Msg>, failed: bool)

  /** Reading until nothing complete is left, as the data phase does. */
  function ReadAll(f: Framer, max: int, net: Octets): AllOut
    decreases |net|, DecryptedLeft(f), BodyPending(f)
  {
    TryReadConsumes(f, max, net);
    var o := TryRead(f, max, net);
    match o.res
    case Nothing => AllOut(o.framer, o.net, [], false)
    case Failed => AllOut(o.framer, o.net, [], true)
    case Frame(m) =>
      var r := ReadAll(o.framer, max, o.net);
      r.(msgs := [m] + r.msgs)
  }

  lemma {:induction false} ReadAllResumes(f: Framer, max: int, a: Octets, b: Octets)
    ensures var r := ReadAll(f, max, a);
            ReadAll(f, max, a + b) ==
              if r.failed then AllOut(r.framer, r.net + b, r.msgs, true)
              else var q := ReadAll(r.framer, max, r.net + b); q.(msgs := r.msgs + q.msgs)
    decreases |a|, DecryptedLeft(f), BodyPending(f)
  {
    TryReadResumes(f, max, a, b);
    TryReadConsumes(f, max, a);
    var o := TryRead(f, max, a);
    match o.res
    case Frame(m) =>
      ReadAllResumes(o.framer, max, o.net, b);
      var r := ReadAll(o.framer, max, o.net);
      if !r.failed {
        var q := ReadAll(r.framer, max, r.net + b);
        assert [m] + (r.msgs + q.msgs) == ([m] + r.msgs) + q.msgs;
      }
    case Nothing =>
      var q := ReadAll(o.framer, max, o.net + b);
      assert [] + q.msgs == q.msgs;
    case Failed =>
  }

  /** The chunks of a stream read one after another. */
  function ReadChunks(f: Framer, max: int, net: Octets, chunks: seq<Octets>): AllOut
    decreases |chunks|
  {
    if chunks == [] then AllOut(f, net, [], false)
    else
      var r := ReadAll(f, max, net + chunks[0]);
      if r.failed then AllOut(r.framer, r.net + Concat(chunks[1..]), r.msgs, true)
      else var q := ReadChunks(r.framer, max, r.net, chunks[1..]); q.(msgs := r.msgs + q.msgs)
  }

  function Concat(chunks: seq<Octets>): Octets {
    if chunks == [] then [] else chunks[0] + Concat(chunks[1..])
  }

  /** Nothing complete is waiting to be read. */
  ghost predicate Drained(f: Framer, max: int, net: Octets) {
    TryRead(f, max, net) == ReadOut(f, net, Nothing)
  }

  lemma {:induction false} ReadAllDrains(f: Framer, max: int, net: Octets)
    ensures var r := ReadAll(f, max, net); !r.failed ==> Drained(r.framer, max, r.net)
    decreases |net|, DecryptedLeft(f), BodyPending(f)
  {
    TryReadConsumes(f, max, net);
    var o := TryRead(f, max, net);
    if o.res.Frame? {
      ReadAllDrains(o.framer, max, o.net);
    } else if o.res.Nothing? {
      TryReadResumes(f, max, net, []);
      assert net + [] == net && o.net + [] == o.net;
    }
  }

  /** Any way of cutting the stream gives what reading it in one piece gives. */
  lemma {:induction false} ChunkingIrrelevant(f: Framer, max: int, net: Octets, chunks: seq<Octets>)
    requires Drained(f, max, net)
    ensures ReadChunks(f, max, net, chunks) == ReadAll(f, max, net + Concat(chunks))
    decreases |chunks|
  {
    if chunks == [] {
      assert net + Concat(chunks) == net;
    } else {
      var rest := Concat(chunks[1..]);
      assert net + Concat(chunks) == (net + chunks[0]) + rest;
      ReadAllResumes(f, max, net + chunks[0], rest);
      var r := ReadAll(f, max, net + chunks[0]);
      if !r.failed {
        ReadAllDrains(f, max, net + chunks[0]);
        ChunkingIrrelevant(r.framer, max, r.net, chunks[1..]);
      }
    }
  }

  // --- What is written is what is read ---

  /** The block's length survives its two-octet prefix exactly when it fits: a longer ciphertext
      is cut, and the reader is handed something else. */
  lemma BlockReadableIff(ciphertext: Octets, tail: Octets)
    ensures (FirstBlock(SecureBlock(ciphertext) + tail) == Some(Block(ciphertext, tail))) <==> |ciphertext| < 0x1_0000
  {
    Pow256Values();
    BigEndianModulo(|ciphertext|, 2);
    var s := SecureBlock(ciphertext) + tail;
    assert s[..2] == BigEndian(|ciphertext|, 2);
    var len := |ciphertext| % 0x1_0000;
    assert FromBigEndian(s[..2]) == len;
    if |ciphertext| < 0x1_0000 {
      assert s[2..2 + len] == ciphertext;
      assert s[2 + len..] == tail;
    }
  }

  /** The receiver undoes the sender, step by step, as long as both have handled the same blocks. */
  ghost predicate LockstepInverse(w: Cipher, r: Cipher) {
    forall h, p :: w.encrypt(h, p).Some? ==> r.decrypt(h, w.encrypt(h, p).value) == Some(p)
  }

  ghost predicate FitsPrefix(w: Cipher) {
    forall h, p :: w.encrypt(h, p).Some? ==> |w.encrypt(h, p).value| < 0x1_0000
  }

  /** A writer and a reader of the same stream that have nothing in flight between them. */
  ghost predicate Paired(w: Framer, r: Framer) {
    match (w, r)
    case (Plain(_), Plain(p)) => p == ReadHeader
    case (Secure(cw, _, _), Secure(cr, p, d)) =>
      && p == ReadHeader && d == []
      && cr.received == cw.sent
      && LockstepInverse(cw, cr) && FitsPrefix(cw)
    case _ => false
  }

  predicate Deliverable(max: int, ms: seq<Msg>) {
    forall m :: m in ms ==> Sized(m) && Admits(max, |m.data|)
  }

  lemma PlainTakesFrame(m: Msg, max: int, tail: Octets)
    requires Sized(m) && Admits(max, |m.data|)
    ensures var q := ReadAll(Plain(ReadHeader), max, tail);
            ReadAll(Plain(ReadHeader), max, EncodeFrame(m) + tail) == q.(msgs := [m] + q.msgs)
  {
    FrameRoundTrip(m, max, tail);
  }

  lemma SecureTakesFrame(c: Cipher, m: Msg, max: int, tail: Octets, net: Octets)
    requires Sized(m) && Admits(max, |m.data|)
    ensures var q := ReadAll(Secure(c, ReadHeader, tail), max, net);
            ReadAll(Secure(c, ReadHeader, EncodeFrame(m) + tail), max, net) == q.(msgs := [m] + q.msgs)
  {
    FrameRoundTrip(m, max, tail);
  }

  lemma DeliverableTail(max: int, ms: seq<Msg>)
    requires Deliverable(max, ms) && ms != []
    ensures Sized(ms[0]) && Admits(max, |ms[0].data|) && Deliverable(max, ms[1..])
  {
  }

  /** Plain octets of whole frames at the front of the parser's input are all read. */
  lemma {:induction false} PlainStreamStep(max: int, ms: seq<Msg>, net: Octets)
    requires Deliverable(max, ms)
    ensures var q := ReadAll(Plain(ReadHeader), max, net);
            ReadAll(Plain(ReadHeader), max, EncodeAll(ms) + net) == q.(msgs := ms + q.msgs)
    decreases |ms|
  {
    var q := ReadAll(Plain(ReadHeader), max, net);
    if ms == [] {
      assert EncodeAll(ms) + net == net;
      assert ms + q.msgs == q.msgs;
    } else {
      DeliverableTail(max, ms);
      PlainStreamStep(max, ms[1..], net);
      PlainTakesFrame(ms[0], max, EncodeAll(ms[1..]) + net);
      EncodeAllCons(ms, net);
      Uncons(ms, q.msgs);
    }
  }

  /** Decrypted octets that are whole frames are all read before the network is touched again. */
  lemma {:induction false} DrainsDecrypted(c: Cipher, max: int, ms: seq<Msg>, net: Octets)
    requires Deliverable(max, ms)
    ensures var r := ReadAll(Secure(c, ReadHeader, []), max, net);
            ReadAll(Secure(c, ReadHeader, EncodeAll(ms)), max, net) == r.(msgs := ms + r.msgs)
    decreases |ms|
  {
    var r := ReadAll(Secure(c, ReadHeader, []), max, net);
    if ms == [] {
      assert ms + r.msgs == r.msgs;
    } else {
      DeliverableTail(max, ms);
      DrainsDecrypted(c, max, ms[1..], net);
      SecureTakesFrame(c, ms[0], max, EncodeAll(ms[1..]), net);
      Uncons(ms, r.msgs);
    }
  }

  /** With nothing decrypted yet, the next block is opened and its octets parsed. */
  lemma OpensBlock(c: Cipher, max: int, ct: Octets, plain: Octets, net: Octets)
    requires |ct| < 0x1_0000
    requires c.decrypt(c.received, ct) == Some(plain)
    ensures ReadAll(Secure(c, ReadHeader, []), max, SecureBlock(ct) + net) ==
            ReadAll(Secure(c.(received := c.received + [plain]), ReadHeader, plain), max, net)
  {
    BlockReadableIff(ct, net);
    assert [] + plain == plain;
  }

  datatype Batches = Batches(framer: Framer, wire: Octets)

  /** Several multipart messages written one after another; `None` if one is refused. */
  function WriteBatches(w: Framer, batches: seq<seq<Msg>>): Option<Batches>
    decreases |batches|
  {
    if batches == [] then Some(Batches(w, []))
    else
      match Write(w, batches[0])
      case None => None
      case Some(first) =>
        match WriteBatches(first.framer, batches[1..])
        case None => None
        case Some(more) => Some(Batches(more.framer, first.wire + more.wire))
  }

  function Flatten(batches: seq<seq<Msg>>): seq<Msg> {
    if batches == [] then [] else batches[0] + Flatten(batches[1..])
  }

  lemma FlattenDeliverable(max: int, batches: seq<seq<Msg>>)
    requires Deliverable(max, Flatten(batches)) && batches != []
    ensures Deliverable(max, batches[0]) && Deliverable(max, Flatten(batches[1..]))
  {
  }

  lemma PlainDrained(max: int)
    ensures Drained(Plain(ReadHeader), max, [])
  {
  }

  /** Whatever list of multipart messages is written, the paired reader gets exactly those parts
      in that order, and both ends are paired again afterwards. */
  lemma {:induction false} StreamRoundTrip(w: Framer, r: Framer, max: int, batches: seq<seq<Msg>>)
    requires Paired(w, r)
    requires WriteBatches(w, batches).Some?
    requires Deliverable(max, Flatten(batches))
    ensures var out := WriteBatches(w, batches).value;
            var got := ReadAll(r, max, out.wire);
            && got.msgs == Flatten(batches)
            && got.net == [] && !got.failed
            && Paired(out.framer, got.framer)
    decreases |batches|
  {
    if batches == [] {
      PlainDrained(max);
    } else {
      FlattenDeliverable(max, batches);
      var first := Write(w, batches[0]).value;
      var more := WriteBatches(first.framer, batches[1..]).value;
      match w
      case Plain(_) =>
        StreamRoundTrip(first.framer, r, max, batches[1..]);
        PlainStreamStep(max, batches[0], more.wire);
      case Secure(cw, _, _) =>
        var plain := EncodeAll(batches[0]);
        var ct := cw.encrypt(cw.sent, plain).value;
        var c' := r.cipher.(received := r.cipher.received + [plain]);
        OpensBlock(r.cipher, max, ct, plain, more.wire);
        DrainsDecrypted(c', max, batches[0], more.wire);
        StreamRoundTrip(first.framer, Secure(c', ReadHeader, []), max, batches[1..]);
    }
  }

  /** The main result: written by one framer and fed to its peer in any pieces, every message
      comes out once, whole and in order, and nothing is left over. */
  lemma DeliveredThroughAnyChunks(w: Framer, r: Framer, max: int, batches: seq<seq<Msg>>, chunks: seq<Octets>)
    requires Paired(w, r)
    requires WriteBatches(w, batches).Some?
    requires Deliverable(max, Flatten(batches))
    requires Concat(chunks) == WriteBatches(w, batches).value.wire
    ensures var got := ReadChunks(r, max, [], chunks);
            got.msgs == Flatten(batches) && got.net == [] && !got.failed
  {
    StreamRoundTrip(w, r, max, batches);
    PlainDrained(max);
    ChunkingIrrelevant(r, max, [], chunks);
    assert [] + Concat(chunks) == Concat(chunks);
  }

  /** While part of the stream is still under way, what has been read is an initial part of what
      was written and the reader has not failed. */
  lemma PrefixWhileInFlight(w: Framer, r: Framer, max: int, batches: seq<seq<Msg>>, arrived: Octets, pending: Octets)
    requires Paired(w, r)
    requires WriteBatches(w, batches).Some?
    requires Deliverable(max, Flatten(batches))
    requires arrived + pending == WriteBatches(w, batches).value.wire
    ensures var got := ReadAll(r, max, arrived);
            !got.failed && got.msgs <= Flatten(batches)
  {
    StreamRoundTrip(w, r, max, batches);
    ReadAllResumes(r, max, arrived, pending);
  }
}
