/** ZMTP command bodies (protocol/zmtp/command.rs): READY metadata, PING, PONG and ERROR. */
module Commands {
  import opened Bytes
  import opened Frames

  predicate IsAscii(s: string) {
    forall i :: 0 <= i < |s| ==> s[i] < 128 as char
  }

  /** The octets of an ASCII name. */
  function Ascii(s: string): (o: Octets)
    requires IsAscii(s)
    ensures |o| == |s| && forall i :: 0 <= i < |s| ==> o[i] == s[i] as int
  {
    seq(|s|, i requires 0 <= i < |s| => s[i] as int)
  }

  const PING: Octets := [4, 80, 73, 78, 71]
  const PONG: Octets := [4, 80, 79, 78, 71]
  const READY: Octets := [5, 82, 69, 65, 68, 89]
  const ERROR: Octets := [5, 69, 82, 82, 79, 82]

  // --- Property names must be UTF-8 ---

  predicate Continuation(s: Octets, i: nat) {
    i < |s| && 0x80 <= s[i] <= 0xBF
  }

  /** How many octets the first character takes; 0 when it is malformed. */
  function CharLength(s: Octets): (n: nat)
    requires s != []
    ensures n <= |s|
  {
    var b := s[0];
    if b < 0x80 then 1
    else if 0xC2 <= b <= 0xDF && Continuation(s, 1) then 2
    else if 0xE0 <= b <= 0xEF && Continuation(s, 1) && Continuation(s, 2)
            && (b == 0xE0 ==> s[1] >= 0xA0) && (b == 0xED ==> s[1] <= 0x9F) then 3
    else if 0xF0 <= b <= 0xF4 && Continuation(s, 1) && Continuation(s, 2) && Continuation(s, 3)
            && (b == 0xF0 ==> s[1] >= 0x90) && (b == 0xF4 ==> s[1] <= 0x8F) then 4
    else 0
  }

  predicate ValidUtf8(s: Octets)
    decreases |s|
  {
    s == [] || (CharLength(s) > 0 && ValidUtf8(s[CharLength(s)..]))
  }

  lemma {:induction false} AsciiIsUtf8(s: Octets)
    requires forall i :: 0 <= i < |s| ==> s[i] < 128
    ensures ValidUtf8(s)
    decreases |s|
  {
    if s != [] {
      AsciiIsUtf8(s[1..]);
    }
  }

  // --- READY metadata ---

  datatype Property = Property(name: Octets, value: Octets)

  type Properties = map<Octets, Octets>

  /** The loop of `parse_properties`: one property after another until the body is used up. */
  function ReadProperties(body: Octets, props: Properties): Option<Properties>
    decreases |body|
  {
    if body == [] then Some(props)
    else
      var n := body[0];
      if |body| < 1 + n then None
      else
        var name := body[1..1 + n];
        if !ValidUtf8(name) || |body| < 1 + n + 4 then None
        else
          var len := FromBigEndian(body[1 + n..1 + n + 4]);
          if |body| < 1 + n + 4 + len then None
          else ReadProperties(body[1 + n + 4 + len..], props[name := body[1 + n + 4..1 + n + 4 + len]])
  }

  method ParseProperties(body: Octets) returns (props: Option<Properties>)
    ensures props == ReadProperties(body, map[])
  {
    var cursor := body;
    var found: Properties := map[];
    while cursor != []
      invariant ReadProperties(cursor, found) == ReadProperties(body, map[])
      decreases |cursor|
    {
      var n := cursor[0];
      var rest := cursor[1..];
      if |rest| < n { return None; }
      var name := rest[..n];
      assert name == cursor[1..1 + n];
      if !ValidUtf8(name) { return None; }
      if |rest| - n < 4 { return None; }
      assert rest[n..n + 4] == cursor[1 + n..1 + n + 4];
      var len := FromBigEndian(rest[n..n + 4]);
      if |rest| - n - 4 < len { return None; }
      assert rest[n + 4..n + 4 + len] == cursor[1 + n + 4..1 + n + 4 + len];
      found := found[name := rest[n + 4..n + 4 + len]];
      assert rest[n + 4 + len..] == cursor[1 + n + 4 + len..];
      cursor := rest[n + 4 + len..];
    }
    return Some(found);
  }

  function PropertyBytes(p: Property): Octets
    requires |p.name| <= 255
  {
    [|p.name|] + p.name + BigEndian(|p.value|, 4) + p.value
  }

  /** Names of more than 255 octets are left out. */
  function WriteProperties(ps: seq<Property>): Octets {
    if ps == [] then []
    else (if |ps[0].name| <= 255 then PropertyBytes(ps[0]) else []) + WriteProperties(ps[1..])
  }

  /** What a list of properties means: later entries replace earlier ones of the same name. */
  function MeaningOf(ps: seq<Property>, props: Properties): Properties {
    if ps == [] then props else MeaningOf(ps[1..], props[ps[0].name := ps[0].value])
  }

  predicate Writable(p: Property) {
    |p.name| <= 255 && ValidUtf8(p.name) && |p.value| < 0x1_0000_0000
  }

  lemma EntryRead(b: Octets, p: Property, size: Octets, tail: Octets, props: Properties)
    requires Writable(p) && |size| == 4 && FromBigEndian(size) == |p.value|
    requires b == [|p.name|] + p.name + size + p.value + tail
    ensures ReadProperties(b, props) == ReadProperties(tail, props[p.name := p.value])
  {
    var n := |p.name|;
    assert b[0] == n && b[1..1 + n] == p.name;
    assert b[1 + n..1 + n + 4] == size;
    assert b[1 + n + 4..1 + n + 4 + |p.value|] == p.value;
    assert b[1 + n + 4 + |p.value|..] == tail;
  }

  lemma PropertyRead(p: Property, tail: Octets, props: Properties)
    requires Writable(p)
    ensures ReadProperties(PropertyBytes(p) + tail, props) == ReadProperties(tail, props[p.name := p.value])
  {
    Pow256Values();
    BigEndianRoundTrip(|p.value|, 4);
    EntryRead(PropertyBytes(p) + tail, p, BigEndian(|p.value|, 4), tail, props);
  }

  /** Metadata written in any order is read back with the same meaning. */
  lemma {:induction false} PropertiesRoundTrip(ps: seq<Property>, props: Properties)
    requires forall i :: 0 <= i < |ps| ==> Writable(ps[i])
    ensures ReadProperties(WriteProperties(ps), props) == Some(MeaningOf(ps, props))
    decreases |ps|
  {
    if ps != [] {
      PropertyRead(ps[0], WriteProperties(ps[1..]), props);
      PropertiesRoundTrip(ps[1..], props[ps[0].name := ps[0].value]);
    }
  }

  // --- Commands ---

  datatype Command =
    | Ping(context: Octets)
    | Pong(context: Octets)
    | Ready(props: Properties)
    | PeerError
    | Unknown(body: Octets)

  function CommandOf(m: Msg): Option<Command> {
    if !m.command || m.more then None
    else if PING <= m.data && |m.data| >= 7 then Some(Ping(m.data[7..]))
    else if PONG <= m.data then Some(Pong(m.data[5..]))
    else if READY <= m.data then
      match ReadProperties(m.data[6..], map[])
      case None => None
      case Some(props) => Some(Ready(props))
    else if ERROR <= m.data then Some(PeerError)
    else Some(Unknown(m.data))
  }

  function ReadyMsg(ps: seq<Property>): Msg {
    Msg(READY + WriteProperties(ps), false, true)
  }

  /** A PING carries a two-octet time to live, then the context. */
  function PingMsg(ttl: nat, context: Octets): Msg {
    Msg(PING + BigEndian(ttl, 2) + context, false, true)
  }

  function PongMsg(context: Octets): Msg {
    Msg(PONG + context, false, true)
  }

  lemma ReadyBody(m: Msg, rest: Octets)
    requires m.data == READY + rest && m.command && !m.more
    ensures CommandOf(m) == match ReadProperties(rest, map[])
                            case None => None
                            case Some(props) => Some(Ready(props))
  {
    assert m.data[..6] == READY;
    assert m.data[0] == 5 && PING[0] == 4 && PONG[0] == 4;
    assert m.data[6..] == rest;
  }

  lemma ReadyRoundTrip(ps: seq<Property>)
    requires forall i :: 0 <= i < |ps| ==> Writable(ps[i])
    ensures CommandOf(ReadyMsg(ps)) == Some(Ready(MeaningOf(ps, map[])))
  {
    ReadyBody(ReadyMsg(ps), WriteProperties(ps));
    PropertiesRoundTrip(ps, map[]);
  }

  /** The PONG answering a PING returns the PING's own context. */
  lemma PingPongContext(ttl: nat, context: Octets)
    ensures CommandOf(PingMsg(ttl, context)) == Some(Ping(context))
    ensures CommandOf(PongMsg(context)) == Some(Pong(context))
  {
    var ping := PingMsg(ttl, context);
    assert ping.data[..5] == PING;
    assert ping.data[7..] == context;
    var pong := PongMsg(context);
    assert pong.data[..5] == PONG && pong.data[2] == 79;
    assert !(PING <= pong.data);
    assert pong.data[5..] == context;
  }
}
