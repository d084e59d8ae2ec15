/** The content of an encrypted stream: what a writer has sealed, what a reader has opened and
    which frames it has taken out of it. */
module SecureBooks {
  import opened Bytes
  import opened Frames
  import opened Framers
  import opened NoiseXx
  import opened Handler
  import opened SecureStreams

  // --- Frames that carry application data ---

  function Payload(ms: seq<Msg>): seq<Msg> {
    if ms == [] then [] else Payload(ms[..|ms| - 1]) + (if ms[|ms| - 1].command then [] else [ms[|ms| - 1]])
  }

  lemma PayloadSnoc(ms: seq<Msg>, m: Msg)
    ensures Payload(ms + [m]) == Payload(ms) + (if m.command then [] else [m])
  {
    assert (ms + [m])[..|ms|] == ms;
  }

  lemma {:induction false} PayloadConcat(a: seq<Msg>, b: seq<Msg>)
    ensures Payload(a + b) == Payload(a) + Payload(b)
    decreases |b|
  {
    if b == [] {
      assert a + b == a;
    } else {
      var most, last := b[..|b| - 1], b[|b| - 1];
      assert a + b == (a + most) + [last] && b == most + [last];
      PayloadConcat(a, most);
      PayloadSnoc(a + most, last);
      PayloadSnoc(most, last);
    }
  }

  lemma PayloadPrefix(a: seq<Msg>, b: seq<Msg>)
    requires a <= b
    ensures Payload(a) <= Payload(b)
  {
    assert b == a + b[|a|..];
    PayloadConcat(a, b[|a|..]);
  }

  /** The data told upstream, in order. */
  function DataOf(es: seq<UpEvent>): seq<Msg> {
    if es == [] then [] else DataOf(es[..|es| - 1]) + (if es[|es| - 1].Data? then [es[|es| - 1].msg] else [])
  }

  lemma DataSnoc(es: seq<UpEvent>, e: UpEvent)
    ensures DataOf(es + [e]) == DataOf(es) + (if e.Data? then [e.msg] else [])
  {
    assert (es + [e])[..|es|] == es;
  }

  lemma {:induction false} FlattenSnoc(bs: seq<seq<Msg>>, b: seq<Msg>)
    ensures Flatten(bs + [b]) == Flatten(bs) + b
    decreases |bs|
  {
    if bs == [] {
      assert [b][1..] == [] && Flatten([b]) == b + [] && [] + [b] == [b];
    } else {
      assert (bs + [b])[1..] == bs[1..] + [b];
      FlattenSnoc(bs[1..], b);
    }
  }

  lemma PayloadMore(bs: seq<seq<Msg>>, b: seq<Msg>)
    ensures Payload(Flatten(bs + [b])) == Payload(Flatten(bs)) + Payload(b)
  {
    FlattenSnoc(bs, b);
    PayloadConcat(Flatten(bs), b);
  }

  // --- What has been sealed ---

  /** The batch of frames in one encrypted send. */
  function Carried(b: Blueprint): seq<seq<Msg>> {
    if !b.Send? || !b.secure then []
    else
      match b.content
      case Control => []
      case CommandFrame(m) => [[m]]
      case AppParts(parts) => [parts]
  }

  type Tally = seq<Blueprint> -> seq<seq<Msg>>

  /** `tally` counts sends one after another, as `TallyOf` does. */
  ghost predicate Tallies(tally: Tally) {
    forall ops, b :: tally(ops + [b]) == tally(ops) + Carried(b)
  }

  function TallyOf(ops: seq<Blueprint>): seq<seq<Msg>> {
    if ops == [] then [] else TallyOf(ops[..|ops| - 1]) + Carried(ops[|ops| - 1])
  }

  lemma TallyTallies()
    ensures Tallies(TallyOf)
  {
  }

  /** The plaintexts of batches of frames. */
  function Plains(bs: seq<seq<Msg>>): (ps: seq<Octets>)
    ensures |ps| == |bs| && forall i :: 0 <= i < |bs| ==> ps[i] == EncodeAll(bs[i])
  {
    seq(|bs|, i requires 0 <= i < |bs| => EncodeAll(bs[i]))
  }

  lemma PlainsSnoc(bs: seq<seq<Msg>>, b: seq<Msg>)
    ensures Plains(bs + [b]) == Plains(bs) + [EncodeAll(b)]
  {
  }

  type Sealer = (seq<Octets>, Octets) -> Option<Octets>

  /** The blocks for a list of plaintexts, if the cipher takes them all. */
  function Sealed(encrypt: Sealer, plains: seq<Octets>): Option<Octets> {
    if plains == [] then Some([])
    else
      var most, last := plains[..|plains| - 1], plains[|plains| - 1];
      match (Sealed(encrypt, most), encrypt(most, last))
      case (Some(blocks), Some(ct)) => Some(blocks + SecureBlock(ct))
      case _ => None
  }

  lemma SealedSnoc(encrypt: Sealer, plains: seq<Octets>, p: Octets)
    requires Sealed(encrypt, plains).Some? && encrypt(plains, p).Some?
    ensures Sealed(encrypt, plains + [p]) == Some(Sealed(encrypt, plains).value + SecureBlock(encrypt(plains, p).value))
  {
    assert (plains + [p])[..|plains|] == plains;
  }

  /** Any block, with what is before and behind it. */
  lemma {:induction false} SealedSplit(encrypt: Sealer, plains: seq<Octets>, k: nat) returns (tail: Octets)
    requires Sealed(encrypt, plains).Some? && k < |plains|
    ensures Sealed(encrypt, plains[..k]).Some? && encrypt(plains[..k], plains[k]).Some?
    ensures Sealed(encrypt, plains).value ==
            Sealed(encrypt, plains[..k]).value + (SecureBlock(encrypt(plains[..k], plains[k]).value) + tail)
    decreases |plains|
  {
    var n := |plains| - 1;
    var most := plains[..n];
    var block := SecureBlock(encrypt(most, plains[n]).value);
    if k == n {
      tail := [];
      assert block + [] == block;
    } else {
      var rest := SealedSplit(encrypt, most, k);
      assert most[..k] == plains[..k];
      tail := rest + block;
      Regroup(Sealed(encrypt, most[..k]).value, SecureBlock(encrypt(most[..k], most[k]).value), rest, block);
    }
  }

  lemma Regroup(a: Octets, b: Octets, c: Octets, d: Octets)
    ensures (a + (b + c)) + d == a + (b + (c + d))
  {
  }

  // --- What has been opened ---

  type Opener = (seq<Octets>, Octets) -> Option<Octets>

  /** What one end seals the other opens, and it fits its length prefix. */
  ghost predicate Unseals(encrypt: Sealer, decrypt: Opener) {
    forall h, p :: encrypt(h, p).Some? ==>
      |encrypt(h, p).value| < 0x1_0000 && decrypt(h, encrypt(h, p).value) == Some(p)
  }

  /** The first block of part of a sealed stream is the one that was sealed there. */
  lemma FirstSealed(ct: Octets, net: Octets, tail: Octets)
    requires |ct| < 0x1_0000 && net <= SecureBlock(ct) + tail && FirstBlock(net).Some?
    ensures FirstBlock(net).value.body == ct && net == SecureBlock(ct) + FirstBlock(net).value.rest
  {
    var whole := SecureBlock(ct) + tail;
    var more := whole[|net|..];
    assert net + more == whole;
    FirstBlockResumes(net, more);
    BlockReadableIff(ct, tail);
    var rest := FirstBlock(net).value.rest;
    assert rest + more == tail;
    SameTail(net, more, SecureBlock(ct), rest);
  }

  lemma PrefixOfRest(a: Octets, net: Octets, rest: Octets)
    requires a + net <= a + rest
    ensures net <= rest
  {
    assert (a + net)[|a|..] == net && (a + rest)[|a|..] == rest;
  }

  /** Opening blocks from the front of a sealed stream gives the plaintexts sealed in it. */
  lemma {:induction false} OpensSealed(encrypt: Sealer, decrypt: Opener, plains: seq<Octets>, octets: Octets, n: nat)
    requires Unseals(encrypt, decrypt) && Sealed(encrypt, plains).Some? && octets <= Sealed(encrypt, plains).value
    requires Open(decrypt, [], octets, n).Some?
    ensures n <= |plains| && Open(decrypt, [], octets, n).value.0 == plains[..n]
    ensures Sealed(encrypt, plains[..n]).Some?
    ensures octets == Sealed(encrypt, plains[..n]).value + Open(decrypt, [], octets, n).value.1
    decreases n
  {
    if n == 0 {
      assert plains[..0] == [] && [] + octets == octets;
    } else {
      OpenShorter(decrypt, [], octets, n - 1);
      OpensSealed(encrypt, decrypt, plains, octets, n - 1);
      OpenNext(decrypt, [], octets, n - 1);
      var o := Open(decrypt, [], octets, n - 1).value;
      if n - 1 == |plains| {
        NoneBeyond(encrypt, decrypt, plains, octets, n - 1, o.1);
        assert false;
      }
      NextSealed(encrypt, decrypt, plains, octets, n - 1, o.1);
    }
  }

  lemma NoneBeyond(encrypt: Sealer, decrypt: Opener, plains: seq<Octets>, octets: Octets, k: nat, net: Octets)
    requires Sealed(encrypt, plains).Some? && octets <= Sealed(encrypt, plains).value && k == |plains|
    requires Sealed(encrypt, plains[..k]).Some? && octets == Sealed(encrypt, plains[..k]).value + net
    ensures Open(decrypt, plains[..k], net, 1).None?
  {
    assert plains[..k] == plains;
    assert net == [];
  }

  lemma NextSealed(encrypt: Sealer, decrypt: Opener, plains: seq<Octets>, octets: Octets, k: nat, net: Octets)
    requires Unseals(encrypt, decrypt) && Sealed(encrypt, plains).Some? && octets <= Sealed(encrypt, plains).value && k < |plains|
    requires Sealed(encrypt, plains[..k]).Some? && octets == Sealed(encrypt, plains[..k]).value + net
    requires Open(decrypt, plains[..k], net, 1).Some?
    ensures Sealed(encrypt, plains[..k + 1]).Some?
    ensures var o := Open(decrypt, plains[..k], net, 1).value;
            o.0 == plains[..k + 1] && octets == Sealed(encrypt, plains[..k + 1]).value + o.1
  {
    var tail := SealedSplit(encrypt, plains, k);
    var ct := encrypt(plains[..k], plains[k]).value;
    var before := Sealed(encrypt, plains[..k]).value;
    PrefixOfRest(before, net, SecureBlock(ct) + tail);
    FirstSealed(ct, net, tail);
    assert plains[..k + 1] == plains[..k] + [plains[k]];
    SealedSnoc(encrypt, plains[..k], plains[k]);
    var rest := FirstBlock(net).value.rest;
    OpenOne(decrypt, plains[..k], net);
    Assoc3(before, SecureBlock(ct), rest);
  }

  lemma Assoc3(a: Octets, b: Octets, c: Octets)
    ensures a + (b + c) == (a + b) + c
  {
  }

  lemma OpenOne(decrypt: Opener, sofar: seq<Octets>, net: Octets)
    requires Open(decrypt, sofar, net, 1).Some?
    ensures FirstBlock(net).Some? && decrypt(sofar, FirstBlock(net).value.body).Some?
    ensures Open(decrypt, sofar, net, 1).value ==
            (sofar + [decrypt(sofar, FirstBlock(net).value.body).value], FirstBlock(net).value.rest)
  {
  }

  lemma {:induction false} OpenShorter(decrypt: Opener, sofar: seq<Octets>, net: Octets, n: nat)
    requires Open(decrypt, sofar, net, n + 1).Some?
    ensures Open(decrypt, sofar, net, n).Some?
    decreases n
  {
    if n > 0 {
      var block := FirstBlock(net).value;
      OpenShorter(decrypt, sofar + [decrypt(sofar, block.body).value], block.rest, n - 1);
    }
  }

  /** A secure framer that has opened blocks of a sealed stream has plaintexts sealed in it, and
      goes on having them, even through a read that fails. */
  lemma {:induction false} ReadTrue(f: Framer, max: int, net: Octets, octets: Octets, encrypt: Sealer, truth: seq<Octets>)
    requires OpenedFrom(f, net, octets) && Unseals(encrypt, f.cipher.decrypt)
    requires Sealed(encrypt, truth).Some? && octets <= Sealed(encrypt, truth).value
    ensures f.cipher.received <= truth
    ensures var g := TryRead(f, max, net).framer; g.Secure? && g.cipher.received <= truth
    decreases |net|
  {
    var c := f.cipher;
    OpensSealed(encrypt, c.decrypt, truth, octets, |c.received|);
    var o := Parse(f.parser, max, f.decrypted);
    if o.res.NeedMore? && FirstBlock(net).Some? {
      var block := FirstBlock(net).value;
      var plain := c.decrypt(c.received, block.body);
      if plain.Some? {
        var c' := c.(received := c.received + [plain.value]);
        OpenNext(c.decrypt, [], octets, |c.received|);
        assert Open(c.decrypt, c'.received, block.rest, 0) == Some((c'.received, block.rest));
        assert |c'.received| == |c.received| + 1;
        ReadTrue(Secure(c', o.state, o.rest + plain.value), max, block.rest, octets, encrypt, truth);
      }
    }
  }

  // --- Which frames have been taken ---

  /** Takes one frame from the front of some octets, if it is complete. */
  type Cutter = Octets -> Option<(Msg, Octets)>

  function FrameCutter(max: int): Cutter {
    (octets: Octets) =>
      var o := Parse(ReadHeader, max, octets);
      if o.res.Got? then Some((o.res.msg, o.rest)) else None
  }

  /** Later octets are left over. */
  ghost predicate LeavesOver(cut: Cutter) {
    forall a, b :: cut(a).Some? ==> cut(a + b) == Some((cut(a).value.0, cut(a).value.1 + b))
  }

  lemma FramesLeaveOver(max: int)
    ensures LeavesOver(FrameCutter(max))
  {
    forall a, b | FrameCutter(max)(a).Some?
      ensures FrameCutter(max)(a + b) == Some((FrameCutter(max)(a).value.0, FrameCutter(max)(a).value.1 + b))
    {
      ParseResumes(ReadHeader, max, a, b);
    }
  }

  /** Taking `n` frames from the front of `octets`: the frames and the octets left. */
  function Eat(cut: Cutter, octets: Octets, n: nat): Option<(seq<Msg>, Octets)>
    decreases n
  {
    if n == 0 then Some(([], octets))
    else
      match Eat(cut, octets, n - 1)
      case None => None
      case Some(e) =>
        match cut(e.1)
        case None => None
        case Some(f) => Some((e.0 + [f.0], f.1))
  }

  lemma {:induction false} EatMore(cut: Cutter, octets: Octets, n: nat, b: Octets)
    requires LeavesOver(cut) && Eat(cut, octets, n).Some?
    ensures var e := Eat(cut, octets, n).value; Eat(cut, octets + b, n) == Some((e.0, e.1 + b))
    decreases n
  {
    if n > 0 {
      EatMore(cut, octets, n - 1, b);
    }
  }

  /** What the cutter finds in part of what was written is what was written there. */
  ghost predicate CutsWritten(cut: Cutter, write: seq<Msg> -> Octets) {
    forall octets, fs :: AllSized(fs) && octets <= write(fs) && cut(octets).Some? ==>
      fs != [] && cut(octets).value.0 == fs[0] && cut(octets).value.1 <= write(fs[1..])
  }

  lemma FramesCutWritten(max: int)
    ensures CutsWritten(FrameCutter(max), EncodeAll)
  {
    forall octets, fs | AllSized(fs) && octets <= EncodeAll(fs) && FrameCutter(max)(octets).Some?
      ensures fs != [] && FrameCutter(max)(octets).value.0 == fs[0] && FrameCutter(max)(octets).value.1 <= EncodeAll(fs[1..])
    {
      CutsFirst(max, octets, fs);
    }
  }

  lemma CutsFirst(max: int, octets: Octets, fs: seq<Msg>)
    requires AllSized(fs) && octets <= EncodeAll(fs) && Parse(ReadHeader, max, octets).res.Got?
    ensures var o := Parse(ReadHeader, max, octets);
            fs != [] && o.res.msg == fs[0] && o.rest <= EncodeAll(fs[1..])
  {
    var more := EncodeAll(fs)[|octets|..];
    assert octets + more == EncodeAll(fs);
    if fs != [] {
      assert Sized(fs[0]);
      FindsFrame(ReadHeader, max, octets, octets, more, fs[0], EncodeAll(fs[1..]));
    }
  }

  lemma CutsAt(cut: Cutter, write: seq<Msg> -> Octets, octets: Octets, fs: seq<Msg>, k: nat)
    requires CutsWritten(cut, write) && AllSized(fs) && k <= |fs| && octets <= write(fs[k..]) && cut(octets).Some?
    ensures k < |fs| && fs[..k + 1] == fs[..k] + [cut(octets).value.0] && cut(octets).value.1 <= write(fs[k + 1..])
  {
    assert AllSized(fs[k..]);
    assert fs[k..] != [] ==> fs[k..][1..] == fs[k + 1..] && fs[k..][0] == fs[k];
  }

  /** Frames taken from part of what was written are those that were written. */
  lemma {:induction false} EatsWritten(cut: Cutter, write: seq<Msg> -> Octets, octets: Octets, n: nat, fs: seq<Msg>)
    requires CutsWritten(cut, write) && Eat(cut, octets, n).Some? && AllSized(fs) && octets <= write(fs)
    ensures var e := Eat(cut, octets, n).value; n <= |fs| && e.0 == fs[..n] && e.1 <= write(fs[n..])
    decreases n
  {
    if n == 0 {
      assert fs[..0] == [] && fs[0..] == fs;
    } else {
      EatsWritten(cut, write, octets, n - 1, fs);
      CutsAt(cut, write, Eat(cut, octets, n - 1).value.1, fs, n - 1);
    }
  }

  /** The frames `c` were taken out of what the framer has opened, and it stands behind them. */
  ghost predicate Standing(f: Framer, max: int, c: seq<Msg>, left: Octets) {
    && f.Secure? && Taken(f, max, c, left)
    && StandsAt(f.parser, max, f.decrypted, left)
  }

  ghost predicate Taken(f: Framer, max: int, c: seq<Msg>, left: Octets)
    requires f.Secure?
  {
    Eat(FrameCutter(max), Concat(f.cipher.received), |c|) == Some((c, left))
  }

  lemma TakesNext(cut: Cutter, octets: Octets, c: seq<Msg>, left: Octets)
    requires Eat(cut, octets, |c|) == Some((c, left)) && cut(left).Some?
    ensures Eat(cut, octets, |c + [cut(left).value.0]|) == Some((c + [cut(left).value.0], cut(left).value.1))
  {
  }

  lemma {:induction false} ConcatSnoc(cs: seq<Octets>, c: Octets)
    ensures Concat(cs + [c]) == Concat(cs) + c
    decreases |cs|
  {
    if cs == [] {
      assert [c][1..] == [] && [] + [c] == [c] && c + [] == c;
    } else {
      assert (cs + [c])[1..] == cs[1..] + [c];
      ConcatSnoc(cs[1..], c);
    }
  }

  lemma StandsStill(parser: ParserState, max: int, net: Octets, left: Octets)
    requires StandsAt(parser, max, net, left) && Parse(parser, max, net).res.NeedMore?
    ensures var o := Parse(parser, max, net); StandsAt(o.state, max, o.rest, left)
  {
    ParseStable(parser, max, net);
  }

  /** One read takes at most one frame, the next, and opens what it needs for it. */
  lemma {:induction false} ReadStands(f: Framer, max: int, net: Octets, c: seq<Msg>, left: Octets) returns (left': Octets)
    requires Standing(f, max, c, left)
    ensures var o := TryRead(f, max, net);
            && o.framer.Secure?
            && (o.res.Nothing? ==> Standing(o.framer, max, c, left'))
            && (o.res.Frame? ==> Standing(o.framer, max, c + [o.res.msg], left'))
            && (o.res.Failed? ==> Taken(o.framer, max, c, left'))
    decreases |net|
  {
    var o := Parse(f.parser, max, f.decrypted);
    left' := left;
    if o.res.Got? {
      TakesNext(FrameCutter(max), Concat(f.cipher.received), c, left);
      ParseConsumes(ReadHeader, max, left);
      left' := o.rest;
    } else if o.res.NeedMore? {
      StandsStill(f.parser, max, f.decrypted, left);
      if FirstBlock(net).Some? {
        var block := FirstBlock(net).value;
        var plain := f.cipher.decrypt(f.cipher.received, block.body);
        if plain.Some? {
          var g := Secure(f.cipher.(received := f.cipher.received + [plain.value]), o.state, o.rest + plain.value);
          OpensMore(f, g, max, c, left, plain.value);
          StandsMore(o.state, max, o.rest, left, plain.value);
          left' := ReadStands(g, max, block.rest, c, left + plain.value);
        }
      }
    }
  }

  lemma OpensMore(f: Framer, g: Framer, max: int, c: seq<Msg>, left: Octets, plain: Octets)
    requires f.Secure? && g.Secure? && Taken(f, max, c, left) && g.cipher.received == f.cipher.received + [plain]
    ensures Taken(g, max, c, left + plain)
  {
    ConcatSnoc(f.cipher.received, plain);
    FramesLeaveOver(max);
    EatMore(FrameCutter(max), Concat(f.cipher.received), |c|, plain);
  }

  /** What was written in batches is written frame by frame. */
  lemma {:induction false} PlainsAre(bs: seq<seq<Msg>>)
    ensures Concat(Plains(bs)) == EncodeAll(Flatten(bs))
    decreases |bs|
  {
    if bs != [] {
      assert Plains(bs)[1..] == Plains(bs[1..]);
      PlainsAre(bs[1..]);
      EncodeAllConcat(bs[0], Flatten(bs[1..]));
    }
  }

  lemma {:induction false} ConcatPrefix(a: seq<Octets>, b: seq<Octets>)
    requires a <= b
    ensures Concat(a) <= Concat(b)
    decreases |a|
  {
    if a != [] {
      ConcatPrefix(a[1..], b[1..]);
    }
  }

  /** A reader that opened what a writer sealed has taken a prefix of the frames that were sealed. */
  lemma TakenAreWritten(f: Framer, max: int, c: seq<Msg>, left: Octets, bs: seq<seq<Msg>>)
    requires f.Secure? && Taken(f, max, c, left) && f.cipher.received <= Plains(bs) && AllSized(Flatten(bs))
    ensures c <= Flatten(bs)
  {
    ConcatPrefix(f.cipher.received, Plains(bs));
    PlainsAre(bs);
    FramesCutWritten(max);
    EatsWritten(FrameCutter(max), EncodeAll, Concat(f.cipher.received), |c|, Flatten(bs));
  }
}
