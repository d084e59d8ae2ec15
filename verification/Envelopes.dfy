/** Envelopes of the request-reply sockets REQ, REP, DEALER and ROUTER, on lists of frames: the
    socket files themselves, socket/patterns/framing.rs and socket/patterns/router.rs. */
module Envelopes {
  import opened Bytes
  import opened Frames
  import opened Framers

  // --- MORE flags ---

  /** MORE on every frame but the last. */
  function Chained(ms: seq<Msg>): (r: seq<Msg>)
    ensures |r| == |ms|
    ensures forall i :: 0 <= i < |ms| ==> r[i] == ms[i].(more := i < |ms| - 1)
  {
    seq(|ms|, i requires 0 <= i < |ms| => ms[i].(more := i < |ms| - 1))
  }

  /** The loop that several senders run over their frames. */
  method SetMoreFlags(ms: seq<Msg>) returns (r: seq<Msg>)
    ensures r == Chained(ms)
  {
    r := ms;
    for i := 0 to |ms|
      invariant |r| == |ms|
      invariant forall j :: 0 <= j < i ==> r[j] == ms[j].(more := j < |ms| - 1)
      invariant forall j :: i <= j < |ms| ==> r[j] == ms[j]
    {
      r := r[i := r[i].(more := i < |ms| - 1)];
    }
  }

  /** Only the last frame's flag is cleared; the others keep what the application set. */
  function LastCleared(ms: seq<Msg>): seq<Msg> {
    if ms == [] then [] else ms[|ms| - 1 := ms[|ms| - 1].(more := false)]
  }

  /** The application marked every frame but the last itself. */
  predicate MarkedMore(ms: seq<Msg>) {
    forall i :: 0 <= i < |ms| - 1 ==> ms[i].more
  }

  lemma ClearedIsChained(ms: seq<Msg>)
    ensures LastCleared(ms) == Chained(ms) <==> MarkedMore(ms)
  {
  }

  // --- Messages on the wire ---

  datatype Assembled = Assembled(messages: seq<seq<Msg>>, partial: seq<Msg>)

  /** `accumulate_pipe_frame`: a frame without MORE completes the message. */
  function Accumulate(a: Assembled, f: Msg): Assembled {
    if f.more then a.(partial := a.partial + [f]) else Assembled(a.messages + [a.partial + [f]], [])
  }

  function Assemble(a: Assembled, fs: seq<Msg>): Assembled
    decreases |fs|
  {
    if fs == [] then a else Assemble(Accumulate(a, fs[0]), fs[1..])
  }

  /** Frames come on pipes; a pipe without an unfinished message has no entry. `done` lists the
      messages completed, each with its pipe. */
  datatype Gathered = Gathered(partials: map<nat, seq<Msg>>, done: seq<(nat, seq<Msg>)>)

  function PartialOf(g: Gathered, pipe: nat): seq<Msg> { if pipe in g.partials then g.partials[pipe] else [] }

  function Gather(g: Gathered, pipe: nat, f: Msg): Gathered {
    var assembled := PartialOf(g, pipe) + [f];
    if f.more then g.(partials := g.partials[pipe := assembled])
    else Gathered(g.partials - {pipe}, g.done + [(pipe, assembled)])
  }

  function GatherAll(g: Gathered, fs: seq<(nat, Msg)>): Gathered
    decreases |fs|
  {
    if fs == [] then g else GatherAll(Gather(g, fs[0].0, fs[0].1), fs[1..])
  }

  function OnPipe<T>(xs: seq<(nat, T)>, pipe: nat): seq<T>
    decreases |xs|
  {
    if xs == [] then [] else (if xs[0].0 == pipe then [xs[0].1] else []) + OnPipe(xs[1..], pipe)
  }

  function PipeView(g: Gathered, pipe: nat): Assembled { Assembled(OnPipe(g.done, pipe), PartialOf(g, pipe)) }

  lemma {:induction false} OnPipeSnoc<T>(xs: seq<(nat, T)>, x: (nat, T), pipe: nat)
    ensures OnPipe(xs + [x], pipe) == OnPipe(xs, pipe) + (if x.0 == pipe then [x.1] else [])
    decreases |xs|
  {
    if xs == [] {
      assert ([x])[1..] == [];
    } else {
      assert (xs + [x])[1..] == xs[1..] + [x];
      OnPipeSnoc(xs[1..], x, pipe);
    }
  }

  /** A frame does to its own pipe what it does alone, and nothing to any other. */
  lemma GatherOnPipe(g: Gathered, from: nat, f: Msg, pipe: nat)
    ensures PipeView(Gather(g, from, f), pipe) ==
            if from == pipe then Accumulate(PipeView(g, pipe), f) else PipeView(g, pipe)
  {
    if !f.more {
      OnPipeSnoc(g.done, (from, PartialOf(g, from) + [f]), pipe);
    }
  }

  /** However the frames of many pipes are interleaved, each pipe's messages are those its own
      frames alone make up. */
  lemma {:induction false} PipesApart(g: Gathered, fs: seq<(nat, Msg)>, pipe: nat)
    ensures PipeView(GatherAll(g, fs), pipe) == Assemble(PipeView(g, pipe), OnPipe(fs, pipe))
    decreases |fs|
  {
    if fs != [] {
      GatherOnPipe(g, fs[0].0, fs[0].1, pipe);
      PipesApart(Gather(g, fs[0].0, fs[0].1), fs[1..], pipe);
      if fs[0].0 == pipe {
        assert OnPipe(fs, pipe)[1..] == OnPipe(fs[1..], pipe);
      } else {
        assert OnPipe(fs, pipe) == OnPipe(fs[1..], pipe);
      }
    }
  }

  class IncomingOrchestrator {
    var partials: map<nat, seq<Msg>>
    ghost var done: seq<(nat, seq<Msg>)>

    ghost function Value(): Gathered
      reads this
    {
      Gathered(partials, done)
    }

    constructor ()
      ensures Value() == Gathered(map[], [])
    {
      partials, done := map[], [];
    }

    method AccumulatePipeFrame(pipe: nat, f: Msg) returns (m: Option<seq<Msg>>)
      modifies this
      ensures Value() == Gather(old(Value()), pipe, f)
      ensures m == if f.more then None else Some(old(PartialOf(Value(), pipe)) + [f])
    {
      var assembled := if pipe in partials then partials[pipe] else [];
      assembled := assembled + [f];
      if f.more {
        partials := partials[pipe := assembled];
        return None;
      }
      partials := partials - {pipe};
      done := done + [(pipe, assembled)];
      return Some(assembled);
    }
  }

  lemma {:induction false} AssembleAppends(a: Assembled, p: seq<Msg>, q: seq<Msg>)
    ensures Assemble(a, p + q) == Assemble(Assemble(a, p), q)
    decreases |p|
  {
    if p == [] {
      assert p + q == q;
    } else {
      assert (p + q)[1..] == p[1..] + q;
      AssembleAppends(Accumulate(a, p[0]), p[1..], q);
    }
  }

  /** All frames marked MORE only gather; the one that is not completes. */
  lemma {:induction false} AssembleOne(a: Assembled, m: seq<Msg>)
    requires m != [] && MarkedMore(m) && !m[|m| - 1].more
    ensures Assemble(a, m) == Assembled(a.messages + [a.partial + m], [])
    decreases |m|
  {
    if |m| == 1 {
      assert m[1..] == [] && m == [m[0]];
    } else {
      var b := Accumulate(a, m[0]);
      forall i | 0 <= i < |m[1..]| - 1 ensures m[1..][i].more {
        assert m[i + 1].more;
      }
      AssembleOne(b, m[1..]);
      assert b.partial + m[1..] == a.partial + m by {
        assert m == [m[0]] + m[1..];
        Reassociated(a.partial, [m[0]], m[1..]);
      }
    }
  }

  lemma Reassociated<T>(a: seq<T>, b: seq<T>, c: seq<T>)
    ensures (a + b) + c == a + (b + c)
  {
  }

  predicate WellMarked(ms: seq<seq<Msg>>) {
    forall i :: 0 <= i < |ms| ==> ms[i] != [] && MarkedMore(ms[i]) && !ms[i][|ms[i]| - 1].more
  }

  /** Splitting the concatenated frames by MORE recovers the list of messages, with nothing over. */
  lemma {:induction false} SplitRecovers(a: seq<seq<Msg>>, ms: seq<seq<Msg>>)
    requires WellMarked(ms)
    ensures Assemble(Assembled(a, []), Flatten(ms)) == Assembled(a + ms, [])
    decreases |ms|
  {
    if ms == [] {
      assert a + ms == a;
    } else {
      AssembleAppends(Assembled(a, []), ms[0], Flatten(ms[1..]));
      AssembleOne(Assembled(a, []), ms[0]);
      assert [] + ms[0] == ms[0];
      SplitRecovers(a + [ms[0]], ms[1..]);
      assert ms == [ms[0]] + ms[1..];
      Reassociated(a, [ms[0]], ms[1..]);
    }
  }

  /** So a list of messages sent on a pipe is recovered whatever comes on the others meanwhile. */
  lemma RecoveredOnPipe(fs: seq<(nat, Msg)>, pipe: nat, ms: seq<seq<Msg>>)
    requires WellMarked(ms) && OnPipe(fs, pipe) == Flatten(ms)
    ensures var g := GatherAll(Gathered(map[], []), fs);
            OnPipe(g.done, pipe) == ms && pipe !in g.partials
  {
    PipesApart(Gathered(map[], []), fs, pipe);
    SplitRecovers([], ms);
    assert [] + ms == ms;
    PartialsProper(Gathered(map[], []), fs);
  }

  /** A pipe is only kept while it has an unfinished message. */
  lemma {:induction false} PartialsProper(g: Gathered, fs: seq<(nat, Msg)>)
    requires forall p :: p in g.partials ==> g.partials[p] != []
    ensures forall p :: p in GatherAll(g, fs).partials ==> GatherAll(g, fs).partials[p] != []
    decreases |fs|
  {
    if fs != [] {
      PartialsProper(Gather(g, fs[0].0, fs[0].1), fs[1..]);
    }
  }

  /** How many messages a list of frames ends. */
  function Ends(fs: seq<Msg>): nat
    decreases |fs|
  {
    if fs == [] then 0 else (if fs[0].more then 0 else 1) + Ends(fs[1..])
  }

  lemma {:induction false} AssembleCounts(a: Assembled, fs: seq<Msg>)
    ensures |Assemble(a, fs).messages| == |a.messages| + Ends(fs)
    decreases |fs|
  {
    if fs != [] {
      AssembleCounts(Accumulate(a, fs[0]), fs[1..]);
    }
  }

  lemma {:induction false} OneEndIff(m: seq<Msg>)
    requires m != [] && !m[|m| - 1].more
    ensures Ends(m) >= 1 && (Ends(m) == 1 <==> MarkedMore(m))
    decreases |m|
  {
    if |m| == 1 {
      assert m[1..] == [];
    } else {
      OneEndIff(m[1..]);
      if MarkedMore(m) {
        assert forall i :: 0 <= i < |m[1..]| - 1 ==> m[1..][i] == m[i + 1];
      }
      if MarkedMore(m[1..]) && m[0].more {
        forall i | 0 <= i < |m| - 1 ensures m[i].more {
          assert i > 0 ==> m[1..][i - 1].more;
        }
      }
    }
  }

  /** Frames arrive as one message exactly when MORE is on all but the last. */
  lemma OneMessageIff(w: seq<Msg>)
    requires w != [] && !w[|w| - 1].more
    ensures Assemble(Assembled([], []), w) == Assembled([w], []) <==> MarkedMore(w)
    ensures !MarkedMore(w) ==> |Assemble(Assembled([], []), w).messages| > 1
  {
    AssembleCounts(Assembled([], []), w);
    OneEndIff(w);
    if MarkedMore(w) {
      AssembleOne(Assembled([], []), w);
      assert [] + w == w && [] + [w] == [w];
    }
  }

  // --- REP and REQ ---

  function Empty(more: bool): Msg { Msg([], more, false) }

  datatype Envelope = Envelope(prefix: seq<Msg>, payload: seq<Msg>)

  /** The index of the first empty frame, or the length. */
  function Delimiter(ms: seq<Msg>): (k: nat)
    ensures k <= |ms|
    ensures forall i :: 0 <= i < k ==> ms[i].data != []
    ensures k < |ms| ==> ms[k].data == []
  {
    if ms == [] || ms[0].data == [] then 0 else 1 + Delimiter(ms[1..])
  }

  /** What a REP socket keeps for the reply: everything up to and including the delimiter. Without
      a delimiter it keeps nothing. */
  function Split(ms: seq<Msg>): Envelope {
    var k := Delimiter(ms);
    if k == |ms| then Envelope([], ms) else Envelope(ms[..k + 1], ms[k + 1..])
  }

  lemma {:induction false} DelimiterIs(ms: seq<Msg>, k: nat)
    requires k <= |ms| && (forall i :: 0 <= i < k ==> ms[i].data != []) && (k < |ms| ==> ms[k].data == [])
    ensures Delimiter(ms) == k
  {
  }

  method SplitRequest(ms: seq<Msg>) returns (prefix: seq<Msg>, payload: seq<Msg>)
    ensures Envelope(prefix, payload) == Split(ms)
  {
    prefix, payload := [], [];
    var found := false;
    for i := 0 to |ms|
      invariant !found ==> prefix == ms[..i] && payload == [] && forall j :: 0 <= j < i ==> ms[j].data != []
      invariant found ==> 0 < |prefix| <= i && prefix == ms[..|prefix|] && payload == ms[|prefix|..i]
      invariant found ==> ms[|prefix| - 1].data == [] && forall j :: 0 <= j < |prefix| - 1 ==> ms[j].data != []
    {
      if !found {
        prefix := prefix + [ms[i]];
        found := ms[i].data == [];
      } else {
        payload := payload + [ms[i]];
      }
    }
    if found {
      DelimiterIs(ms, |prefix| - 1);
      assert ms[|prefix|..|ms|] == ms[|prefix|..];
    } else {
      assert ms[..|ms|] == ms;
      DelimiterIs(ms, |ms|);
      payload := prefix;
      prefix := [];
    }
  }

  /** Prefix and payload are the request, cut in two. */
  lemma SplitCovers(ms: seq<Msg>)
    ensures Split(ms).prefix + Split(ms).payload == ms
  {
  }

  function Reply(prefix: seq<Msg>, payload: seq<Msg>): seq<Msg> {
    Chained(prefix + Answered(payload))
  }

  /** A reply without frames is sent as one empty frame. */
  function Answered(payload: seq<Msg>): seq<Msg> { if payload == [] then [Empty(false)] else payload }

  function ReqSends(m: Msg): seq<Msg> { [Empty(true), m.(more := false)] }

  function ReqReceives(ms: seq<Msg>): seq<Msg> {
    if ms != [] && ms[0].data == [] then ms[1..] else ms
  }

  /** The identities that the hops on the way to the replier put in front, the last hop first. */
  function Identities(ids: seq<Octets>): (r: seq<Msg>)
    ensures |r| == |ids| && forall i :: 0 <= i < |ids| ==> r[i] == Msg(ids[i], true, false)
  {
    seq(|ids|, i requires 0 <= i < |ids| => Msg(ids[i], true, false))
  }

  /** On the way back each hop takes the first frame off. */
  function Returned(hops: nat, ms: seq<Msg>): seq<Msg> {
    if hops == 0 || ms == [] then ms else Returned(hops - 1, ms[1..])
  }

  lemma {:induction false} ReturnedDrops(hops: nat, ms: seq<Msg>)
    requires hops <= |ms|
    ensures Returned(hops, ms) == ms[hops..]
  {
    if hops > 0 {
      ReturnedDrops(hops - 1, ms[1..]);
      assert ms[1..][hops - 1..] == ms[hops..];
    }
  }

  lemma RequestSplits(ids: seq<Octets>, m: Msg)
    requires forall i :: 0 <= i < |ids| ==> ids[i] != []
    ensures Split(Identities(ids) + ReqSends(m)) == Envelope(Identities(ids) + [Empty(true)], [m.(more := false)])
  {
    var w := Identities(ids) + ReqSends(m);
    DelimiterIs(w, |ids|);
  }

  lemma ChainedTail(p: seq<Msg>, q: seq<Msg>)
    requires q != []
    ensures Chained(p + q)[|p|..] == Chained(q)
  {
  }

  /** Through any chain of identities, the replier sees the request alone, and the requester gets
      the reply's frames and nothing else. */
  lemma ReplyReachesRequester(ids: seq<Octets>, m: Msg, payload: seq<Msg>)
    requires forall i :: 0 <= i < |ids| ==> ids[i] != []
    ensures var e := Split(Identities(ids) + ReqSends(m));
            && e.payload == [m.(more := false)]
            && ReqReceives(Returned(|ids|, Reply(e.prefix, payload))) == Chained(Answered(payload))
  {
    RequestSplits(ids, m);
    var ps := Answered(payload);
    var prefix := Identities(ids) + [Empty(true)];
    Reassociated(Identities(ids), [Empty(true)], ps);
    ReturnedDrops(|ids|, Chained(prefix + ps));
    ChainedTail(Identities(ids), [Empty(true)] + ps);
    ChainedTail([Empty(true)], ps);
    assert Chained([Empty(true)] + ps)[0].data == [];
  }

  // --- DEALER and ROUTER ---

  function DealerSends(manual: bool, ms: seq<Msg>): seq<Msg> {
    if manual then Chained(ms)
    else if ms == [] then [Empty(true), Empty(false)]
    else Chained([Empty(true)] + ms)
  }

  function DealerReceives(manual: bool, ms: seq<Msg>): seq<Msg> {
    if ms == [] || manual then ms
    else if ms[0].data != [] then
      var rest := ms[1..];
      if rest == [] || rest[0].data != [] then rest else rest[1..]
    else ms[1..]
  }

  datatype PeerType = ReqPeer | DealerPeer | RouterPeer | UnknownPeer

  function RouterStrips(peer: PeerType, manual: bool, ms: seq<Msg>): seq<Msg> {
    if manual || peer.RouterPeer? || ms == [] || ms[0].data != [] then ms else ms[1..]
  }

  /** What the application gets: the identity, then the payload. */
  function RouterReceives(peer: PeerType, manual: bool, id: Octets, ms: seq<Msg>): seq<Msg> {
    var payload := RouterStrips(peer, manual, ms);
    LastCleared([Msg(id, payload != [], false)] + payload)
  }

  /** The frames for a peer, identity first. Only the last frame's MORE flag is settled here. */
  function RouterSends(peer: PeerType, manual: bool, id: Msg, payload: seq<Msg>): seq<Msg> {
    LastCleared(
      match peer
      case ReqPeer => [Empty(payload != [])] + payload
      case RouterPeer => payload
      case DealerPeer => if manual then payload else Addressed(id, payload)
      case UnknownPeer => if manual then [id.(more := id.more || payload != [])] + payload else Addressed(id, payload))
  }

  function Addressed(id: Msg, payload: seq<Msg>): seq<Msg> {
    [id.(more := true), Empty(payload != [])] + payload
  }

  /** DEALER to DEALER: the payload arrives as it was sent. */
  lemma DealerToDealer(ms: seq<Msg>)
    ensures DealerReceives(false, DealerSends(false, ms)) == Chained(Answered(ms))
    ensures WellMarked([DealerSends(false, ms)])
    ensures DealerReceives(true, DealerSends(true, ms)) == Chained(ms)
  {
  }

  lemma ChainedKept(first: Msg, ms: seq<Msg>)
    requires ms != [] && first.more
    ensures LastCleared([first] + Chained(ms)) == Chained([first] + ms)
  {
    var a, b := LastCleared([first] + Chained(ms)), Chained([first] + ms);
    forall i | 0 <= i < |a| ensures a[i] == b[i] {
      assert i > 0 ==> ([first] + ms)[i] == ms[i - 1];
    }
  }

  /** DEALER to ROUTER: the application gets the sender's identity and the payload. */
  lemma DealerToRouter(id: Octets, ms: seq<Msg>)
    ensures RouterReceives(DealerPeer, false, id, DealerSends(false, ms)) == Chained([Msg(id, true, false)] + Answered(ms))
  {
    var w := DealerSends(false, ms);
    assert w[1..] == Chained(Answered(ms));
    ChainedKept(Msg(id, true, false), Answered(ms));
  }

  lemma AddressedParts(id: Msg, payload: seq<Msg>)
    requires id.data != []
    ensures var w := RouterSends(DealerPeer, false, id, payload);
            && |w| == 2 + |payload| && w[0].more && w[0].data != [] && w[1].data == []
            && w[2..] == LastCleared(payload) && !w[|w| - 1].more && (payload != [] ==> w[1].more)
  {
  }

  lemma AddressedMarkedIff(id: Msg, payload: seq<Msg>)
    requires id.data != []
    ensures MarkedMore(RouterSends(DealerPeer, false, id, payload)) <==> MarkedMore(payload)
  {
    var w := RouterSends(DealerPeer, false, id, payload);
    assert forall i :: 0 <= i < |payload| - 1 ==> w[i + 2] == payload[i];
  }

  /** ROUTER to DEALER: the frames arrive as one message if and only if the application marked
      every payload frame but the last with MORE; otherwise they are cut into several. The one
      message gives the payload exactly. */
  lemma RouterToDealerIff(id: Msg, payload: seq<Msg>)
    requires id.data != []
    ensures var got := Assemble(Assembled([], []), RouterSends(DealerPeer, false, id, payload));
            && (|got.messages| == 1 && got.partial == [] <==> MarkedMore(payload))
            && |got.messages| >= 1
            && (MarkedMore(payload) ==> DealerReceives(false, got.messages[0]) == Chained(payload))
  {
    var w := RouterSends(DealerPeer, false, id, payload);
    AddressedParts(id, payload);
    AddressedMarkedIff(id, payload);
    OneMessageIff(w);
    ClearedIsChained(payload);
  }

  /** For instance, two payload frames without flags arrive as two messages. */
  lemma UnmarkedPayloadBreaks()
    ensures var w := RouterSends(DealerPeer, false, Msg([1], false, false), [Msg([2], false, false), Msg([3], false, false)]);
            Assemble(Assembled([], []), w).messages ==
              [[Msg([1], true, false), Empty(true), Msg([2], false, false)], [Msg([3], false, false)]]
  {
    var a, d, x, y := Msg([1], true, false), Empty(true), Msg([2], false, false), Msg([3], false, false);
    var w := RouterSends(DealerPeer, false, Msg([1], false, false), [x, y]);
    assert w == [a, d, x] + [y];
    AssembleAppends(Assembled([], []), [a, d, x], [y]);
    AssembleOne(Assembled([], []), [a, d, x]);
    assert [] + [a, d, x] == [a, d, x] && [] + [[a, d, x]] == [[a, d, x]];
    AssembleOne(Assembled([[a, d, x]], []), [y]);
    assert [] + [y] == [y] && [[a, d, x]] + [[y]] == [[a, d, x], [y]];
  }

  /** ROUTER to REQ, likewise. */
  lemma RouterToReqIff(id: Msg, payload: seq<Msg>)
    ensures var got := Assemble(Assembled([], []), RouterSends(ReqPeer, false, id, payload));
            && (|got.messages| == 1 && got.partial == [] <==> MarkedMore(payload))
            && |got.messages| >= 1
            && (MarkedMore(payload) ==> ReqReceives(got.messages[0]) == Chained(payload))
  {
    var w := RouterSends(ReqPeer, false, id, payload);
    assert w[1..] == LastCleared(payload);
    assert forall i :: 0 <= i < |payload| - 1 ==> w[i + 1] == payload[i];
    OneMessageIff(w);
    ClearedIsChained(payload);
  }

  // --- Devices between REQ and REP ---

  /** A device forwards between its ROUTER, towards the requester, and its DEALER, towards the
      replier, both in manual mode. */
  function DeviceUp(peer: PeerType, id: Octets, ms: seq<Msg>): seq<Msg> {
    DealerSends(true, RouterReceives(peer, true, id, ms))
  }

  /** On the way back the first frame is the address. With `strips` the device takes the delimiter
      off before it sends to a REQ. */
  function DeviceDown(peer: PeerType, strips: bool, ms: seq<Msg>): seq<Msg> {
    var fs := DealerReceives(true, ms);
    if fs == [] then []
    else
      var payload := if peer.ReqPeer? && strips && |fs| > 1 then fs[2..] else fs[1..];
      RouterSends(peer, true, fs[0], payload)
  }

  function Towards(left: nat): PeerType { if left <= 1 then ReqPeer else DealerPeer }

  /** A request through devices, the one nearest the replier first in `ids`. */
  function ThroughDevices(ids: seq<Octets>, ms: seq<Msg>): seq<Msg> {
    if ids == [] then ms else DeviceUp(Towards(|ids|), ids[0], ThroughDevices(ids[1..], ms))
  }

  function BackThroughDevices(left: nat, strips: bool, ms: seq<Msg>): seq<Msg> {
    if left == 0 then ms else BackThroughDevices(left - 1, strips, DeviceDown(Towards(left), strips, ms))
  }

  lemma DeviceUpAddresses(peer: PeerType, id: Octets, ms: seq<Msg>)
    requires ms != [] && Chained(ms) == ms
    ensures var w := DeviceUp(peer, id, ms); w == [Msg(id, true, false)] + ms && Chained(w) == w
  {
    ChainedKept(Msg(id, true, false), ms);
    assert Chained([Msg(id, true, false)] + ms) == [Msg(id, true, false)] + ms by {
      var w := [Msg(id, true, false)] + ms;
      forall i | 0 <= i < |w| ensures Chained(w)[i] == w[i] {
        if i > 0 {
          assert w[i] == ms[i - 1] == Chained(ms)[i - 1];
        }
      }
    }
  }

  /** On the way to the replier every device puts one identity in front. */
  lemma {:induction false} DevicesAddress(ids: seq<Octets>, m: Msg)
    ensures var w := ThroughDevices(ids, ReqSends(m)); w == Identities(ids) + ReqSends(m) && Chained(w) == w
    decreases |ids|
  {
    if ids == [] {
      assert Identities(ids) + ReqSends(m) == ReqSends(m);
      assert Chained(ReqSends(m)) == ReqSends(m);
    } else {
      DevicesAddress(ids[1..], m);
      DeviceUpAddresses(Towards(|ids|), ids[0], ThroughDevices(ids[1..], ReqSends(m)));
      assert Identities(ids) == [Msg(ids[0], true, false)] + Identities(ids[1..]);
    }
  }

  lemma ChainedRest(ms: seq<Msg>)
    requires |ms| > 1
    ensures Chained(ms)[1..] == Chained(ms[1..]) && LastCleared(Chained(ms[1..])) == Chained(ms[1..])
  {
    ChainedTail([ms[0]], ms[1..]);
    assert [ms[0]] + ms[1..] == ms;
  }

  lemma DeviceToDealer(strips: bool, ms: seq<Msg>)
    requires |ms| > 1
    ensures DeviceDown(DealerPeer, strips, Chained(ms)) == Chained(ms[1..])
  {
    ChainedRest(ms);
  }

  lemma DeviceToReq(strips: bool, id: Octets, ps: seq<Msg>)
    requires ps != []
    ensures DeviceDown(ReqPeer, strips, Chained([Msg(id, true, false), Empty(true)] + ps)) ==
            if strips then Chained([Empty(true)] + ps) else Chained([Empty(true), Empty(true)] + ps)
  {
    var w := [Msg(id, true, false), Empty(true)] + ps;
    ChainedRest(w);
    assert w[1..] == [Empty(true)] + ps;
    ChainedTail([Msg(id, true, false), Empty(true)], ps);
    ChainedKept(Empty(true), ps);
    ChainedKept(Empty(true), [Empty(true)] + ps);
    assert [Empty(true)] + ([Empty(true)] + ps) == [Empty(true), Empty(true)] + ps;
  }

  /** The frames that leave the last device, or the replier itself. */
  function Homecoming(hops: nat, strips: bool, ps: seq<Msg>): seq<Msg> {
    Chained(if hops == 0 || strips then [Empty(true)] + ps else [Empty(true), Empty(true)] + ps)
  }

  lemma LastDevice(id: Octets, strips: bool, ps: seq<Msg>, left: nat)
    requires ps != [] && left == 1
    ensures BackThroughDevices(left, strips, Chained([Msg(id, true, false), Empty(true)] + ps)) == Homecoming(left, strips, ps)
  {
    DeviceToReq(strips, id, ps);
  }

  lemma EarlierDevice(strips: bool, ms: seq<Msg>, left: nat)
    requires |ms| > 1 && left > 1
    ensures BackThroughDevices(left, strips, Chained(ms)) == BackThroughDevices(left - 1, strips, Chained(ms[1..]))
  {
    DeviceToDealer(strips, ms);
  }

  lemma {:induction false} DevicesReturn(ids: seq<Octets>, strips: bool, ps: seq<Msg>)
    requires ps != []
    ensures BackThroughDevices(|ids|, strips, Chained(Identities(ids) + ([Empty(true)] + ps))) == Homecoming(|ids|, strips, ps)
    decreases |ids|
  {
    var w := Identities(ids) + ([Empty(true)] + ps);
    if ids == [] {
      assert w == [Empty(true)] + ps;
    } else if |ids| == 1 {
      assert w == [Msg(ids[0], true, false), Empty(true)] + ps;
      LastDevice(ids[0], strips, ps, |ids|);
    } else {
      assert w[1..] == Identities(ids[1..]) + ([Empty(true)] + ps);
      EarlierDevice(strips, w, |ids|);
      DevicesReturn(ids[1..], strips, ps);
      SameHome(|ids|, strips, ps);
    }
  }

  lemma SameHome(hops: nat, strips: bool, ps: seq<Msg>)
    requires hops > 1
    ensures Homecoming(hops, strips, ps) == Homecoming(hops - 1, strips, ps)
  {
  }

  /** Request and reply through any chain of devices built from the library's own sockets: the
      replier sees the request alone; the requester gets the reply unchanged if and only if there
      is no device, or the one that faces it takes the delimiter off. The ROUTER sends REQ a
      delimiter of its own even in manual mode, so one is too many otherwise. */
  lemma DevicesReplyIff(ids: seq<Octets>, m: Msg, payload: seq<Msg>, strips: bool)
    requires forall i :: 0 <= i < |ids| ==> ids[i] != []
    ensures var e := Split(ThroughDevices(ids, ReqSends(m)));
            var got := ReqReceives(BackThroughDevices(|ids|, strips, Reply(e.prefix, payload)));
            && e.payload == [m.(more := false)]
            && (got == Chained(Answered(payload)) <==> ids == [] || strips)
            && (got != Chained(Answered(payload)) ==> got == Chained([Empty(true)] + Answered(payload)))
  {
    DevicesAddress(ids, m);
    RequestSplits(ids, m);
    var ps := Answered(payload);
    Reassociated(Identities(ids), [Empty(true)], ps);
    DevicesReturn(ids, strips, ps);
    HomeReceived(|ids|, strips, ps);
  }

  lemma HomeReceived(hops: nat, strips: bool, ps: seq<Msg>)
    requires ps != []
    ensures ReqReceives(Homecoming(hops, strips, ps)) == if hops == 0 || strips then Chained(ps) else Chained([Empty(true)] + ps)
    ensures Chained([Empty(true)] + ps) != Chained(ps)
  {
    ChainedTail([Empty(true)], ps);
    ChainedTail([Empty(true)], [Empty(true)] + ps);
    assert [Empty(true)] + ([Empty(true)] + ps) == [Empty(true), Empty(true)] + ps;
    assert |Chained([Empty(true)] + ps)| == |Chained(ps)| + 1;
  }
}
