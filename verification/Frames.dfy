/** ZMTP frames: the encoder of codec.rs and the incremental parser of manual_parser.rs. */
module Frames {
  import opened Bytes

  /** One message part. An absent payload and an empty one are the same on the wire. */
  datatype Msg = Msg(data: Octets, more: bool, command: bool)

  /** A payload length fits the machine word that holds it. */
  predicate Sized(m: Msg) {
    |m.data| < 0x1_0000_0000_0000_0000
  }

  predicate AllSized(ms: seq<Msg>) {
    forall m :: m in ms ==> Sized(m)
  }

  // The flag octet: bit 0 is MORE, bit 1 is LONG, bit 2 is COMMAND.

  function FlagsOf(m: Msg, long: bool): (b: Byte) {
    (if m.more then 1 else 0) + (if long then 2 else 0) + (if m.command then 4 else 0)
  }

  predicate IsLong(flags: Byte) { (flags / 2) % 2 == 1 }

  predicate IsMore(flags: Byte) { flags % 2 == 1 }

  predicate IsCommand(flags: Byte) { (flags / 4) % 2 == 1 }

  function HeaderOf(m: Msg): (h: Octets) {
    if |m.data| <= 255 then [FlagsOf(m, false), |m.data|]
    else [FlagsOf(m, true)] + BigEndian(|m.data|, 8)
  }

  function EncodeFrame(m: Msg): (s: Octets) {
    HeaderOf(m) + m.data
  }

  function EncodeAll(ms: seq<Msg>): (s: Octets) {
    if ms == [] then [] else EncodeFrame(ms[0]) + EncodeAll(ms[1..])
  }

  lemma {:induction false} EncodeAllConcat(a: seq<Msg>, b: seq<Msg>)
    ensures EncodeAll(a + b) == EncodeAll(a) + EncodeAll(b)
  {
    if a == [] {
      assert a + b == b;
    } else {
      assert (a + b)[1..] == a[1..] + b;
      EncodeAllConcat(a[1..], b);
    }
  }

  lemma EncodeAllCons(ms: seq<Msg>, tail: Octets)
    requires ms != []
    ensures EncodeAll(ms) + tail == EncodeFrame(ms[0]) + (EncodeAll(ms[1..]) + tail)
  {
  }

  lemma EncodeAllSnoc(a: seq<Msg>, m: Msg)
    ensures EncodeAll(a + [m]) == EncodeAll(a) + EncodeFrame(m)
  {
    EncodeAllConcat(a, [m]);
    assert [m][1..] == [];
  }

  /** The encoder's loop: each part's header and payload appended in order. */
  method WriteFrames(ms: seq<Msg>) returns (buffer: Octets)
    ensures buffer == EncodeAll(ms)
  {
    buffer := [];
    for i := 0 to |ms|
      invariant buffer == EncodeAll(ms[..i])
    {
      EncodeAllSnoc(ms[..i], ms[i]);
      assert ms[..i + 1] == ms[..i] + [ms[i]];
      var header := if |ms[i].data| <= 255 then [FlagsOf(ms[i], false), |ms[i].data|]
                    else [FlagsOf(ms[i], true)] + BigEndian(|ms[i].data|, 8);
      buffer := buffer + (header + ms[i].data);
    }
    assert ms[..|ms|] == ms;
  }

  // --- The incremental parser ---

  datatype ParserState = ReadHeader | ReadBody(flags: Byte, size: nat)

  datatype Decoded = NeedMore | Got(msg: Msg) | Oversize

  datatype ParseOut = ParseOut(state: ParserState, rest: Octets, res: Decoded)

  function HeaderLength(first: Byte): (n: nat) {
    if IsLong(first) then 9 else 2
  }

  /** A negative limit admits every size. */
  predicate Admits(max: int, size: nat) {
    max < 0 || size <= max
  }

  /** One call of the parser: what it returns, what it leaves in the buffer and its next state. */
  function Parse(st: ParserState, max: int, src: Octets): (o: ParseOut)
    decreases if st.ReadHeader? then 1 else 0
  {
    match st
    case ReadBody(flags, size) =>
      if |src| < size then ParseOut(st, src, NeedMore)
      else ParseOut(ReadHeader, src[size..], Got(Msg(src[..size], IsMore(flags), IsCommand(flags))))
    case ReadHeader =>
      if src == [] || |src| < HeaderLength(src[0]) then ParseOut(ReadHeader, src, NeedMore)
      else
        var n := HeaderLength(src[0]);
        var size := FromBigEndian(src[1..n]);
        if !Admits(max, size) then ParseOut(ReadHeader, src[n..], Oversize)
        else Parse(ReadBody(src[0], size), max, src[n..])
  }

  class ManualParser {
    var state: ParserState
    const maxMsgSize: int

    constructor (maxMsgSize: int)
      ensures state == ReadHeader && this.maxMsgSize == maxMsgSize
    {
      state := ReadHeader;
      this.maxMsgSize := maxMsgSize;
    }

    /** Consumes one frame from the front of `src` if it is complete. */
    method DecodeFromBuffer(src: Octets) returns (res: Decoded, rest: Octets)
      modifies this
      ensures ParseOut(state, rest, res) == Parse(old(state), maxMsgSize, src)
    {
      rest := src;
      res := NeedMore;
      while true
        invariant Parse(state, maxMsgSize, rest) == Parse(old(state), maxMsgSize, src)
        decreases state.ReadHeader?
      {
        match state {
          case ReadHeader =>
            if rest == [] { return; }
            var first := rest[0];
            var headerLen := if IsLong(first) then 9 else 2;
            if |rest| < headerLen { return; }
            var size := FromBigEndian(rest[1..headerLen]);
            rest := rest[headerLen..];
            if maxMsgSize >= 0 && size > maxMsgSize {
              res := Oversize;
              return;
            }
            state := ReadBody(first, size);
          case ReadBody(flags, size) =>
            if |rest| < size { return; }
            res := Got(Msg(rest[..size], IsMore(flags), IsCommand(flags)));
            rest := rest[size..];
            state := ReadHeader;
            return;
        }
      }
    }
  }

  // --- Properties of the parser ---

  /** Later octets only continue a parse: an answer already given never changes, and an
      unfinished parse resumes exactly where it stopped. */
  lemma ParseResumes(st: ParserState, max: int, a: Octets, b: Octets)
    ensures var o := Parse(st, max, a);
            Parse(st, max, a + b) ==
              if o.res.NeedMore? then Parse(o.state, max, o.rest + b)
              else ParseOut(o.state, o.rest + b, o.res)
    decreases if st.ReadHeader? then 1 else 0
  {
    match st
    case ReadBody(flags, size) =>
      if |a| >= size {
        assert (a + b)[..size] == a[..size];
        assert (a + b)[size..] == a[size..] + b;
      }
    case ReadHeader =>
      if a != [] && |a| >= HeaderLength(a[0]) {
        var n := HeaderLength(a[0]);
        assert (a + b)[1..n] == a[1..n];
        assert (a + b)[n..] == a[n..] + b;
        var size := FromBigEndian(a[1..n]);
        if Admits(max, size) {
          ParseResumes(ReadBody(a[0], size), max, a[n..], b);
        }
      }
  }

  /** A parse never invents octets, and a returned frame uses up at least its header. */
  lemma ParseConsumes(st: ParserState, max: int, src: Octets)
    ensures var o := Parse(st, max, src);
            && |o.rest| <= |src|
            && o.rest == src[|src| - |o.rest|..]
            && (st.ReadHeader? && !o.res.NeedMore? ==> |o.rest| < |src|)
            && (o.res.NeedMore? && st != o.state ==> |o.rest| < |src|)
            && (!o.res.NeedMore? ==> o.state == ReadHeader)
  {
  }

  lemma FlagsRoundTrip(m: Msg, long: bool)
    ensures IsLong(FlagsOf(m, long)) == long
    ensures IsMore(FlagsOf(m, long)) == m.more
    ensures IsCommand(FlagsOf(m, long)) == m.command
  {
  }

  lemma HeaderParses(m: Msg, max: int, tail: Octets)
    requires Sized(m)
    ensures var s := HeaderOf(m) + tail;
            && |s| >= HeaderLength(s[0]) && |HeaderOf(m)| == HeaderLength(s[0])
            && FromBigEndian(s[1..HeaderLength(s[0])]) == |m.data|
            && s[HeaderLength(s[0])..] == tail
            && IsMore(s[0]) == m.more && IsCommand(s[0]) == m.command
  {
    var s := HeaderOf(m) + tail;
    FlagsRoundTrip(m, |m.data| > 255);
    if |m.data| <= 255 {
      assert s[1..2] == [|m.data|];
      assert FromBigEndian([|m.data|]) == |m.data| by { assert [|m.data|][..0] == []; }
    } else {
      Pow256Values();
      assert s[1..9] == BigEndian(|m.data|, 8);
      BigEndianRoundTrip(|m.data|, 8);
    }
    assert s[HeaderLength(s[0])..] == tail;
  }

  /** Octets that begin with a header for `body`, and go on with it. */
  predicate Headed(s: Octets, body: Octets, rest: Octets) {
    && s != [] && |s| >= HeaderLength(s[0])
    && FromBigEndian(s[1..HeaderLength(s[0])]) == |body|
    && s[HeaderLength(s[0])..] == body + rest
  }

  lemma BodyTaken(flags: Byte, max: int, body: Octets, rest: Octets)
    ensures Parse(ReadBody(flags, |body|), max, body + rest) ==
            ParseOut(ReadHeader, rest, Got(Msg(body, IsMore(flags), IsCommand(flags))))
  {
    assert (body + rest)[..|body|] == body && (body + rest)[|body|..] == rest;
  }

  lemma HeadedParses(s: Octets, max: int, body: Octets, rest: Octets)
    requires Headed(s, body, rest)
    ensures Admits(max, |body|) ==>
              Parse(ReadHeader, max, s) == ParseOut(ReadHeader, rest, Got(Msg(body, IsMore(s[0]), IsCommand(s[0]))))
    ensures !Admits(max, |body|) ==> Parse(ReadHeader, max, s) == ParseOut(ReadHeader, body + rest, Oversize)
  {
    BodyTaken(s[0], max, body, rest);
  }

  lemma FrameHeaded(m: Msg, max: int, tail: Octets)
    requires Sized(m)
    ensures var s := EncodeFrame(m) + tail; Headed(s, m.data, tail) && IsMore(s[0]) == m.more && IsCommand(s[0]) == m.command
  {
    assert EncodeFrame(m) + tail == HeaderOf(m) + (m.data + tail);
    HeaderParses(m, max, m.data + tail);
  }

  /** A written frame is read back whole, and nothing after it is touched. */
  lemma FrameRoundTrip(m: Msg, max: int, tail: Octets)
    requires Sized(m) && Admits(max, |m.data|)
    ensures Parse(ReadHeader, max, EncodeFrame(m) + tail) == ParseOut(ReadHeader, tail, Got(m))
  {
    FrameHeaded(m, max, tail);
    HeadedParses(EncodeFrame(m) + tail, max, m.data, tail);
  }

  /** A frame above the receiver's limit is refused as soon as its header is complete. */
  lemma OversizeRefused(m: Msg, max: int, tail: Octets)
    requires Sized(m) && !Admits(max, |m.data|)
    ensures Parse(ReadHeader, max, EncodeFrame(m) + tail) == ParseOut(ReadHeader, m.data + tail, Oversize)
  {
    FrameHeaded(m, max, tail);
    HeadedParses(EncodeFrame(m) + tail, max, m.data, tail);
  }

  /** Nor is any part of it taken for a frame. */
  lemma OversizePartRefused(m: Msg, max: int, part: Octets)
    requires Sized(m) && !Admits(max, |m.data|) && part <= EncodeFrame(m)
    ensures !Parse(ReadHeader, max, part).res.Got?
  {
    var rest := EncodeFrame(m)[|part|..];
    assert part + rest == EncodeFrame(m) && EncodeFrame(m) + [] == EncodeFrame(m);
    OversizeRefused(m, max, []);
    ParseResumes(ReadHeader, max, part, rest);
  }

  /** No proper prefix of a written frame is taken for a frame. */
  lemma ProperPrefixWaits(m: Msg, max: int, k: nat)
    requires Sized(m) && Admits(max, |m.data|)
    requires k < |EncodeFrame(m)|
    ensures Parse(ReadHeader, max, EncodeFrame(m)[..k]).res.NeedMore?
  {
    var s := EncodeFrame(m);
    var o := Parse(ReadHeader, max, s[..k]);
    assert s == s[..k] + s[k..];
    ParseResumes(ReadHeader, max, s[..k], s[k..]);
    FrameRoundTrip(m, max, []);
    assert s + [] == s;
  }
}
