/** The NOISE_XX mechanism (security/noise_xx.rs). The Noise library is kept abstract: a party's
    suite says what it writes after a given transcript, which messages it accepts and which static
    key an accepted message proves. The XX pattern has three messages, initiator first. */
module NoiseXx {
  import opened Bytes
  import opened PlainAuth
  import opened Framers

  type Transcript = seq<Octets>

  datatype Suite = Suite(
    write: Transcript -> Octets,
    read: (Transcript, Octets) -> Option<Octets>,
    encrypt: (Transcript, seq<Octets>, Octets) -> Option<Octets>,
    decrypt: (Transcript, seq<Octets>, Octets) -> Option<Octets>)

  /** The library's handshake state: the messages so far and the peer's static key. */
  datatype Handshake = Handshake(initiator: bool, transcript: Transcript, remote: Option<Octets>)

  predicate Finished(s: Handshake) { |s.transcript| == 3 }

  predicate MyTurn(s: Handshake) {
    |s.transcript| < 3 && (|s.transcript| % 2 == 0 <==> s.initiator)
  }

  datatype Status = Initializing | Handshaking | Ready | Errored

  datatype NoiseMech = NoiseMech(
    isServer: bool,
    suite: Suite,
    state: Option<Handshake>,
    transport: Option<Transcript>,
    configured: Option<Octets>,
    verified: Option<Octets>,
    status: Status,
    pending: Option<Octets>)

  /** A client must know the server's key in advance; a server learns the client's. */
  function NoiseStart(isServer: bool, suite: Suite, configured: Option<Octets>): Option<NoiseMech> {
    if !isServer && configured.None? then None
    else
      var remote := if isServer then None else configured;
      Some(NoiseMech(isServer, suite, Some(Handshake(!isServer, [], remote)), None, configured, None, Initializing, None))
  }

  datatype Outcome = Outcome(mech: NoiseMech, ok: bool)

  /** `transition_to_final_state`: verify the peer's key, then switch to transport mode. */
  function Finalize(n: NoiseMech): Outcome {
    match n.state
    case None => Outcome(n, false)
    case Some(s) =>
      if !Finished(s) then Outcome(n, false)
      else if s.remote.None? then Outcome(n.(status := Errored), false)
      else
        var m := n.(verified := s.remote);
        if !n.isServer && n.configured != s.remote then Outcome(m.(status := Errored), false)
        else Outcome(m.(state := None, transport := Some(s.transcript), status := Ready), true)
  }

  function WriteNext(n: NoiseMech, s: Handshake): Handshake {
    s.(transcript := s.transcript + [n.suite.write(s.transcript)])
  }

  datatype NoiseProduced = NoiseProduced(mech: NoiseMech, ok: bool, token: Option<Octets>)

  function ProduceNoise(n: NoiseMech): NoiseProduced {
    if n.pending.Some? then
      var m := n.(pending := None);
      if !n.isServer && n.state.Some? && Finished(n.state.value) then
        var f := Finalize(m);
        NoiseProduced(f.mech, f.ok, if f.ok then n.pending else None)
      else NoiseProduced(m, true, n.pending)
    else if n.status == Ready || n.status == Errored then NoiseProduced(n, true, None)
    else
      var m := n.(status := Handshaking);
      if n.status == Initializing && n.isServer then NoiseProduced(m, true, None)
      else
        match n.state
        case None => NoiseProduced(m, false, None)
        case Some(s) =>
          if !MyTurn(s) then NoiseProduced(m, true, None)
          else
            var s' := WriteNext(n, s);
            var w := m.(state := Some(s'));
            if Finished(s') && n.isServer then
              var f := Finalize(w);
              NoiseProduced(f.mech, f.ok, if f.ok then Some(n.suite.write(s.transcript)) else None)
            else NoiseProduced(w, true, Some(n.suite.write(s.transcript)))
  }

  datatype NoiseProcessed = NoiseProcessed(mech: NoiseMech, action: TokenAction)

  /** The handshake state after an accepted message. The second and third message carry the
      sender's static key. */
  function ReadNext(s: Handshake, token: Octets, key: Octets): Handshake {
    Handshake(s.initiator, s.transcript + [token], if s.transcript == [] then s.remote else Some(key))
  }

  function ProcessNoise(n: NoiseMech, token: Octets): NoiseProcessed {
    if n.status == Errored || n.status == Ready then NoiseProcessed(n, Refused)
    else
      var m := n.(status := Handshaking);
      match n.state
      case None => NoiseProcessed(m, Refused)
      case Some(s) =>
        if MyTurn(s) || Finished(s) then NoiseProcessed(m, Refused)
        else
          match n.suite.read(s.transcript, token)
          case None => NoiseProcessed(m, Refused)
          case Some(key) =>
            var s' := ReadNext(s, token, key);
            var w := m.(state := Some(s'));
            if Finished(s') then
              var f := Finalize(w);
              NoiseProcessed(f.mech, if f.ok then HandshakeComplete else Refused)
            else if MyTurn(s') then
              NoiseProcessed(w.(state := Some(WriteNext(n, s')), pending := Some(n.suite.write(s'.transcript))),
                             ProduceAndSend)
            else NoiseProcessed(w.(pending := None), ContinueWaiting)
  }

  // --- The data cipher ---

  const NOISE_TAG_LENGTH := 16
  const NOISE_MAX_MESSAGE := 65535

  function NoiseCipher(suite: Suite, t: Transcript): Cipher {
    Cipher(
      (h: seq<Octets>, p: Octets) =>
        if |p| > NOISE_MAX_MESSAGE - NOISE_TAG_LENGTH then None else suite.encrypt(t, h, p),
      (h: seq<Octets>, c: Octets) =>
        if |c| < NOISE_TAG_LENGTH then None else suite.decrypt(t, h, c),
      [], [])
  }

  /** `into_framer`: only a ready mechanism has transport keys to give. */
  function NoiseFramer(n: NoiseMech): Option<Framer> {
    if n.status == Ready && n.transport.Some?
    then Some(Secure(NoiseCipher(n.suite, n.transport.value), Frames.ReadHeader, []))
    else None
  }

  /** Encryption adds one authentication tag. */
  ghost predicate AddsTag(suite: Suite, t: Transcript) {
    forall h, p :: suite.encrypt(t, h, p).Some? ==> |suite.encrypt(t, h, p).value| == |p| + NOISE_TAG_LENGTH
  }

  /** The payload guard is what keeps every block inside its two-octet length prefix. */
  lemma GuardFitsPrefix(suite: Suite, t: Transcript)
    requires AddsTag(suite, t)
    ensures FitsPrefix(NoiseCipher(suite, t))
  {
  }

  /** What one party's transport encrypts the other's decrypts. */
  ghost predicate TransportInverse(w: Suite, r: Suite, t: Transcript) {
    forall h, p :: w.encrypt(t, h, p).Some? ==> r.decrypt(t, h, w.encrypt(t, h, p).value) == Some(p)
  }

  /** Two ready ends with the same transcript hold framers that read each other. */
  lemma FramersPair(w: NoiseMech, r: NoiseMech)
    requires NoiseFramer(w).Some? && NoiseFramer(r).Some? && w.transport == r.transport
    requires AddsTag(w.suite, w.transport.value) && TransportInverse(w.suite, r.suite, w.transport.value)
    ensures Paired(NoiseFramer(w).value, NoiseFramer(r).value)
  {
  }

  /** The mechanism as the source keeps it. */
  class NoiseXxMechanism {
    const isServer: bool
    const suite: Suite
    var state: Option<Handshake>
    var transport: Option<Transcript>
    const configured: Option<Octets>
    var verified: Option<Octets>
    var status: Status
    var pending: Option<Octets>

    ghost function Value(): NoiseMech
      reads this
    {
      NoiseMech(isServer, suite, state, transport, configured, verified, status, pending)
    }

    constructor (isServer: bool, suite: Suite, configured: Option<Octets>)
      requires isServer || configured.Some?
      ensures NoiseStart(isServer, suite, configured) == Some(Value())
    {
      this.isServer, this.suite, this.configured := isServer, suite, configured;
      state := Some(Handshake(!isServer, [], if isServer then None else configured));
      transport, verified, pending := None, None, None;
      status := Initializing;
    }

    method TransitionToFinalState() returns (ok: bool)
      modifies this
      ensures Outcome(Value(), ok) == Finalize(old(Value()))
    {
      ok := false;
      if state.None? || |state.value.transcript| != 3 {
        return;
      }
      var remote := state.value.remote;
      if remote.None? {
        status := Errored;
        return;
      }
      verified := remote;
      if !isServer && configured != remote {
        status := Errored;
        return;
      }
      transport := Some(state.value.transcript);
      state := None;
      status := Ready;
      ok := true;
    }

    method ProduceToken() returns (ok: bool, token: Option<Octets>)
      modifies this
      ensures NoiseProduced(Value(), ok, token) == ProduceNoise(old(Value()))
    {
      ok, token := true, None;
      if pending.Some? {
        token := pending;
        pending := None;
        if !isServer && state.Some? && Finished(state.value) {
          ok := TransitionToFinalState();
          if !ok { token := None; }
        }
        return;
      }
      if status == Ready || status == Errored {
        return;
      }
      if status == Initializing {
        status := Handshaking;
        if isServer { return; }
      }
      if state.None? {
        ok := false;
        return;
      }
      if MyTurn(state.value) {
        var written := suite.write(state.value.transcript);
        state := Some(state.value.(transcript := state.value.transcript + [written]));
        token := Some(written);
        if Finished(state.value) && isServer {
          ok := TransitionToFinalState();
          if !ok { token := None; }
        }
      }
    }

    method ProcessToken(token: Octets) returns (action: TokenAction)
      modifies this
      ensures NoiseProcessed(Value(), action) == ProcessNoise(old(Value()), token)
    {
      action := Refused;
      if status == Errored || status == Ready {
        return;
      }
      status := Handshaking;
      if state.None? || MyTurn(state.value) || Finished(state.value) {
        return;
      }
      var key := suite.read(state.value.transcript, token);
      if key.None? {
        return;
      }
      state := Some(ReadNext(state.value, token, key.value));
      if Finished(state.value) {
        var ok := TransitionToFinalState();
        action := if ok then HandshakeComplete else Refused;
      } else if MyTurn(state.value) {
        var written := suite.write(state.value.transcript);
        state := Some(state.value.(transcript := state.value.transcript + [written]));
        pending := Some(written);
        action := ProduceAndSend;
      } else {
        pending := None;
        action := ContinueWaiting;
      }
    }
  }

  // --- Two parties and a network that may deliver anything ---

  datatype System = System(client: NoiseMech, server: NoiseMech, clientSent: seq<Octets>, serverSent: seq<Octets>)

  datatype Event =
    | ClientAsked
    | ServerAsked
    | ClientGiven(token: Octets)
    | ServerGiven(token: Octets)

  function Sent(sofar: seq<Octets>, p: NoiseProduced): seq<Octets> {
    if p.token.Some? then sofar + [p.token.value] else sofar
  }

  function Next(x: System, e: Event): System {
    match e
    case ClientAsked =>
      var p := ProduceNoise(x.client);
      x.(client := p.mech, clientSent := Sent(x.clientSent, p))
    case ServerAsked =>
      var p := ProduceNoise(x.server);
      x.(server := p.mech, serverSent := Sent(x.serverSent, p))
    case ClientGiven(token) => x.(client := ProcessNoise(x.client, token).mech)
    case ServerGiven(token) => x.(server := ProcessNoise(x.server, token).mech)
  }

  /** A handshake message is bound to the messages before it: what the client wrote after `u` is
      accepted as a third message after `t` only if they are the same. */
  ghost predicate Binding(client: Suite, server: Suite) {
    forall t: Transcript, u: Transcript :: |t| == 2 && server.read(t, client.write(u)).Some? ==> t == u
  }

  /** And the third message is authenticated: one that the server accepts comes from the client.
      Nothing is asked of any other message. */
  predicate Unforged(x: System, e: Event) {
    (e.ServerGiven? && x.server.state.Some? && |x.server.state.value.transcript| == 2
     && x.server.suite.read(x.server.state.value.transcript, e.token).Some?) ==> e.token in x.clientSent
  }

  function TranscriptOf(n: NoiseMech): Transcript {
    if n.transport.Some? then n.transport.value
    else if n.state.Some? then n.state.value.transcript
    else []
  }

  function Run(x: System, es: seq<Event>): System {
    if es == [] then x else Next(Run(x, es[..|es| - 1]), es[|es| - 1])
  }

  predicate Honest(x: System, es: seq<Event>) {
    es == [] || (Honest(x, es[..|es| - 1]) && Unforged(Run(x, es[..|es| - 1]), es[|es| - 1]))
  }

  function Start(client: Suite, server: Suite, serverKey: Octets): System {
    System(NoiseStart(false, client, Some(serverKey)).value, NoiseStart(true, server, None).value, [], [])
  }

  /** The first and third message of a finished transcript are the client's own. */
  predicate Written(suite: Suite, t: Transcript)
    requires |t| == 3
  {
    t[0] == suite.write([]) && t[2] == suite.write(t[..2])
  }

  /** Where a client can be, and what it has sent by then. */
  predicate ClientInv(n: NoiseMech, sent: seq<Octets>) {
    && !n.isServer && n.configured.Some?
    && match n.state
       case None =>
         && n.status == Ready && n.pending.None?
         && n.transport.Some? && |n.transport.value| == 3
         && sent == [n.transport.value[0], n.transport.value[2]]
         && Written(n.suite, n.transport.value)
         && n.verified == n.configured == n.suite.read(n.transport.value[..1], n.transport.value[1])
       case Some(s) =>
         && s.initiator && n.transport.None? && n.status != Ready
         && (s.transcript == [] ==> sent == [] && n.pending.None? && n.status != Errored)
         && (|s.transcript| == 1 ==> sent == s.transcript == [n.suite.write([])] && n.pending.None? && n.status == Handshaking)
         && (|s.transcript| == 3 ==>
               && sent == s.transcript[..1] && Written(n.suite, s.transcript)
               && s.remote.Some? && s.remote == n.suite.read(s.transcript[..1], s.transcript[1])
               && (if n.status == Errored then n.pending.None? && s.remote != n.configured
                   else n.status == Handshaking && n.pending == Some(s.transcript[2])))
         && (s.transcript == [] || |s.transcript| == 1 || |s.transcript| == 3)
  }

  lemma ClientAskedKeeps(n: NoiseMech, sent: seq<Octets>)
    requires ClientInv(n, sent)
    ensures ClientInv(ProduceNoise(n).mech, Sent(sent, ProduceNoise(n)))
  {
  }

  lemma ClientGivenKeeps(n: NoiseMech, sent: seq<Octets>, token: Octets)
    requires ClientInv(n, sent)
    ensures ClientInv(ProcessNoise(n, token).mech, sent)
  {
  }

  predicate ServerInv(n: NoiseMech) {
    && n.isServer
    && match n.state
       case None => n.status == Ready && n.transport.Some?
       case Some(s) =>
         && !s.initiator && n.transport.None?
         && (n.status == Initializing || n.status == Handshaking)
         && (s.transcript == [] || |s.transcript| == 2)
         && (s.transcript == [] ==> n.pending.None?)
  }

  /** Both ends' invariants, and the agreement itself. */
  predicate SystemInv(x: System) {
    && ClientInv(x.client, x.clientSent)
    && ServerInv(x.server)
    && (x.server.status == Ready ==> x.client.status == Ready && x.client.transport == x.server.transport)
  }

  /** The messages a client has sent, and what each of them was written after. */
  lemma SentByClient(n: NoiseMech, sent: seq<Octets>, token: Octets) returns (u: Transcript)
    requires ClientInv(n, sent) && token in sent
    ensures token == n.suite.write(u)
    ensures |u| == 2 ==> n.status == Ready && n.transport == Some(u + [token])
  {
    if token == n.suite.write([]) {
      u := [];
    } else {
      u := n.transport.value[..2];
      assert n.transport.value == u + [token];
    }
  }

  lemma ServerGivenKeeps(x: System, token: Octets)
    requires SystemInv(x) && Unforged(x, ServerGiven(token)) && Binding(x.client.suite, x.server.suite)
    ensures SystemInv(Next(x, ServerGiven(token)))
  {
    if x.server.state.Some? && |x.server.state.value.transcript| == 2
       && x.server.suite.read(x.server.state.value.transcript, token).Some?
    {
      var t := x.server.state.value.transcript;
      var u := SentByClient(x.client, x.clientSent, token);
      assert x.server.suite.read(t, x.client.suite.write(u)).Some?;
      assert t == u;
    }
  }

  lemma ServerAskedKeeps(n: NoiseMech)
    requires ServerInv(n)
    ensures var m := ProduceNoise(n).mech;
            ServerInv(m) && (m.status == Ready <==> n.status == Ready) && m.transport == n.transport
  {
  }

  lemma NextKeeps(x: System, e: Event)
    requires SystemInv(x) && Unforged(x, e) && Binding(x.client.suite, x.server.suite)
    ensures SystemInv(Next(x, e))
  {
    match e
    case ClientAsked => ClientAskedKeeps(x.client, x.clientSent);
    case ClientGiven(token) => ClientGivenKeeps(x.client, x.clientSent, token);
    case ServerAsked => ServerAskedKeeps(x.server);
    case ServerGiven(token) => ServerGivenKeeps(x, token);
  }

  lemma {:induction false} InvariantHolds(x: System, es: seq<Event>)
    requires SystemInv(x) && Honest(x, es) && Binding(x.client.suite, x.server.suite)
    ensures SystemInv(Run(x, es))
    decreases |es|
  {
    if es != [] {
      SuitesKept(x, es[..|es| - 1]);
      var y := Run(x, es[..|es| - 1]);
      InvariantHolds(x, es[..|es| - 1]);
      NextKeeps(y, es[|es| - 1]);
    }
  }

  /** Agreement: in every run in which the third message cannot be forged, a ready client holds the
      key it was configured with and read it from the second message; a client that saw another key
      never sends the third message; and a ready server implies a client that was ready already,
      with the same transcript and so the same transport keys. */
  lemma Agreement(client: Suite, server: Suite, serverKey: Octets, es: seq<Event>)
    requires Binding(client, server) && Honest(Start(client, server, serverKey), es)
    ensures var x := Run(Start(client, server, serverKey), es);
            && (x.client.status == Ready <==> |x.clientSent| == 2)
            && (x.client.status == Ready ==>
                  var t := TranscriptOf(x.client);
                  && x.client.verified == Some(serverKey)
                  && |t| == 3 && client.read(t[..1], t[1]) == Some(serverKey))
            && (x.server.status == Ready ==>
                  x.client.status == Ready && TranscriptOf(x.client) == TranscriptOf(x.server))
  {
    var x0 := Start(client, server, serverKey);
    assert SystemInv(x0);
    InvariantHolds(x0, es);
    SuitesKept(x0, es);
  }

  lemma {:induction false} SuitesKept(x: System, es: seq<Event>)
    ensures Run(x, es).client.suite == x.client.suite && Run(x, es).server.suite == x.server.suite
    ensures Run(x, es).client.configured == x.client.configured
    decreases |es|
  {
    if es != [] {
      SuitesKept(x, es[..|es| - 1]);
      SuiteKept(Run(x, es[..|es| - 1]), es[|es| - 1]);
    }
  }

  lemma SuiteKept(x: System, e: Event)
    ensures Next(x, e).client.suite == x.client.suite && Next(x, e).server.suite == x.server.suite
    ensures Next(x, e).client.configured == x.client.configured
  {
  }

  /** The three messages of an undisturbed handshake. */
  function HonestEvents(client: Suite, server: Suite): seq<Event> {
    var m1 := client.write([]);
    var m2 := server.write([m1]);
    var m3 := client.write([m1, m2]);
    [ClientAsked, ServerGiven(m1), ServerAsked, ClientGiven(m2), ClientAsked, ServerGiven(m3)]
  }

  /** Undisturbed, both ends become ready exactly when the server's key is the configured one. */
  lemma HonestHandshake(client: Suite, server: Suite, serverKey: Octets, expected: Octets)
    requires server.read([], client.write([])).Some?
    requires var m1 := client.write([]); client.read([m1], server.write([m1])) == Some(serverKey)
    requires var m1 := client.write([]); var m2 := server.write([m1]);
             server.read([m1, m2], client.write([m1, m2])).Some?
    ensures var x := Start(client, server, expected);
            var es := HonestEvents(client, server);
            var y := Run(x, if serverKey == expected then es else es[..5]);
            && (y.client.status == Ready <==> serverKey == expected)
            && (y.server.status == Ready <==> serverKey == expected)
            && (serverKey != expected ==> y.client.status == Errored && |y.clientSent| == 1)
  {
    var x0 := Start(client, server, expected);
    var es := HonestEvents(client, server);
    var x4 := FirstFour(client, server, serverKey, expected);
    RunTake(x0, es, 4);
    if serverKey == expected {
      RunTake(x0, es, 5);
      assert es[..6] == es;
    }
  }

  lemma FirstTwo(client: Suite, server: Suite, expected: Octets) returns (x2: System)
    requires server.read([], client.write([])).Some?
    ensures x2 == Run(Start(client, server, expected), HonestEvents(client, server)[..2])
    ensures var m1 := client.write([]); var m2 := server.write([m1]);
            && x2.client == Start(client, server, expected).client.(state := Some(Handshake(true, [m1], Some(expected))), status := Handshaking)
            && x2.server == Start(client, server, expected).server.(state := Some(Handshake(false, [m1, m2], None)), pending := Some(m2), status := Handshaking)
            && x2.clientSent == [m1]
  {
    var x0 := Start(client, server, expected);
    var es := HonestEvents(client, server);
    var m1 := client.write([]);
    var m2 := server.write([m1]);
    assert es[..0] == [];
    RunTake(x0, es, 0);
    assert [] + [m1] == [m1];
    RunTake(x0, es, 1);
    x2 := Next(Next(x0, es[0]), es[1]);
    assert [m1] + [m2] == [m1, m2];
  }

  lemma FirstFour(client: Suite, server: Suite, serverKey: Octets, expected: Octets) returns (x4: System)
    requires server.read([], client.write([])).Some?
    requires var m1 := client.write([]); client.read([m1], server.write([m1])) == Some(serverKey)
    ensures x4 == Run(Start(client, server, expected), HonestEvents(client, server)[..4])
    ensures var m1 := client.write([]); var m2 := server.write([m1]); var m3 := client.write([m1, m2]);
            && x4.client.state == Some(Handshake(true, [m1, m2, m3], Some(serverKey)))
            && x4.client.pending == Some(m3) && x4.client.status == Handshaking
            && x4.server.state == Some(Handshake(false, [m1, m2], None))
            && x4.server.pending.None? && x4.server.status == Handshaking
            && x4.clientSent == [m1]
            && x4.client.suite == client && x4.server.suite == server
            && !x4.client.isServer && x4.server.isServer && x4.client.configured == Some(expected)
  {
    var x0 := Start(client, server, expected);
    var es := HonestEvents(client, server);
    var m1 := client.write([]);
    var m2 := server.write([m1]);
    var m3 := client.write([m1, m2]);
    var x2 := FirstTwo(client, server, expected);
    RunTake(x0, es, 2);
    RunTake(x0, es, 3);
    x4 := Next(Next(x2, es[2]), es[3]);
    assert [m1] + [m2] == [m1, m2] && [m1, m2] + [m3] == [m1, m2, m3];
  }

  lemma RunTake(x: System, es: seq<Event>, k: nat)
    requires k < |es|
    ensures Run(x, es[..k + 1]) == Next(Run(x, es[..k]), es[k])
  {
    assert es[..k + 1][..k] == es[..k];
  }
}
