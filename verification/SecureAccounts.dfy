/** What a handler that runs NOISE_XX has sent, opened and told, against what its peer has sealed. */
module SecureAccounts {
  import opened Bytes
  import opened Frames
  import opened Framers
  import opened NoiseXx
  import opened SecureStreams
  import opened SecureBooks

  /** `own` is the plain tokens sent and `secured` the encrypted octets, which carry `batches`;
      `framed` is what the application had framed and `told` the data it was told. `live` says that
      the handshake is over and the session goes on, and `transcript` that of an unfinished handshake. */
  datatype Account = Account(
    own: seq<Msg>,
    secured: Octets,
    batches: seq<seq<Msg>>,
    framer: Framer,
    framed: seq<seq<Msg>>,
    told: seq<Msg>,
    live: bool,
    transcript: Option<Transcript>)

  /** The handler's role, limit and suite, and its peer's suite, tokens, encrypted octets and the
      plaintexts in them. */
  datatype Case = Case(
    isServer: bool,
    max: int,
    suite: Suite,
    peerSuite: Suite,
    peer: seq<Msg>,
    stream: Octets,
    truth: seq<Octets>)

  /** The three messages of the handshake, the client's first. */
  function Script(isServer: bool, own: seq<Msg>, peer: seq<Msg>): Transcript
    requires |own| == Writes(isServer) && |peer| == Reads(isServer)
  {
    if isServer then [peer[0].data, own[0].data, peer[1].data] else [own[0].data, peer[0].data, own[1].data]
  }

  lemma ScriptsAgree(isServer: bool, own: seq<Msg>, peer: seq<Msg>)
    requires |own| == Writes(isServer) && |peer| == Reads(isServer)
    ensures Script(isServer, own, peer) == Script(!isServer, peer, own)
  {
  }

  /** The transcript of an unfinished handshake between rounds. */
  function Weave(isServer: bool, own: seq<Msg>, peer: seq<Msg>): Transcript {
    if own == [] || (isServer && peer == []) then []
    else if isServer then [peer[0].data, own[0].data] else [own[0].data]
  }

  predicate AllTokens(k: Case, own: seq<Msg>) { |own| == Writes(k.isServer) && |k.peer| == Reads(k.isServer) }

  function OwnCipher(k: Case, own: seq<Msg>): Cipher
    requires AllTokens(k, own)
  {
    NoiseCipher(k.suite, Script(k.isServer, own, k.peer))
  }

  function PeerCipher(k: Case, own: seq<Msg>): Cipher
    requires AllTokens(k, own)
  {
    NoiseCipher(k.peerSuite, Script(k.isServer, own, k.peer))
  }

  /** The peer's encrypted octets are the truth sealed, under the keys of this handshake. */
  ghost predicate Truthful(k: Case, own: seq<Msg>) {
    if k.truth == [] then k.stream == []
    else AllTokens(k, own) && Sealed(PeerCipher(k, own).encrypt, k.truth) == Some(k.stream)
  }

  /** One suite's transport opens what the other's seals, after every handshake. */
  ghost predicate Matching(w: Suite, r: Suite) {
    forall t :: TransportInverse(w, r, t) && AddsTag(w, t)
  }

  lemma MatchingUnseals(w: Suite, r: Suite, t: Transcript)
    requires Matching(w, r)
    ensures Unseals(NoiseCipher(w, t).encrypt, NoiseCipher(r, t).decrypt)
  {
    assert TransportInverse(w, r, t) && AddsTag(w, t);
    GuardFitsPrefix(w, t);
  }

  // --- Accounts in order ---

  predicate PlainGood(k: Case, a: Account) {
    && a.batches == [] && a.framed == [] && a.told == [] && a.secured == []
    && (a.transcript.Some? ==>
          (k.isServer && a.own != [] ==> k.peer != []) && a.transcript.value == Weave(k.isServer, a.own, k.peer))
  }

  /** The cipher is that of the handshake and has sealed what was sent: commands, and what was framed. */
  ghost predicate SealsGood(k: Case, a: Account) {
    && a.framer.Secure? && AllTokens(k, a.own)
    && var c, d := a.framer.cipher, OwnCipher(k, a.own);
       && c.encrypt == d.encrypt && c.decrypt == d.decrypt
       && c.sent == Plains(a.batches) && Sealed(c.encrypt, c.sent) == Some(a.secured)
       && Payload(Flatten(a.batches)) == Payload(Flatten(a.framed))
  }

  /** The application was told the data among the frames taken; all of it, while the session lasts. */
  ghost predicate Tells(k: Case, a: Account, c: seq<Msg>, left: Octets)
    requires a.framer.Secure?
  {
    && Taken(a.framer, k.max, c, left) && a.told <= Payload(c)
    && (a.live ==> StandsAt(a.framer.parser, k.max, a.framer.decrypted, left) && a.told == Payload(c))
  }

  ghost predicate OpensGood(k: Case, a: Account)
    requires a.framer.Secure?
  {
    a.framer.cipher.received <= k.truth && exists c, left :: Tells(k, a, c, left)
  }

  ghost predicate Good(k: Case, a: Account) {
    && Truthful(k, a.own)
    && if a.framer.Plain? then PlainGood(k, a) else SealsGood(k, a) && OpensGood(k, a)
  }

  // --- What happens to an account ---

  /** The session stops. */
  function Halt(a: Account): Account { a.(live := false, transcript := None) }

  lemma HaltGood(k: Case, a: Account)
    requires Good(k, a)
    ensures Good(k, Halt(a))
  {
    if a.framer.Secure? {
      var c, left :| Tells(k, a, c, left);
      assert Tells(k, Halt(a), c, left);
    }
  }

  /** A batch is sealed and sent; `app` says that it is the application's. */
  function Seal(a: Account, ms: seq<Msg>, app: bool): Account
    requires Write(a.framer, ms).Some?
  {
    var w := Write(a.framer, ms).value;
    a.(framer := w.framer, secured := a.secured + w.wire, batches := a.batches + [ms],
       framed := if app then a.framed + [ms] else a.framed)
  }

  lemma CommandPayload(m: Msg)
    requires m.command
    ensures Payload([m]) == []
  {
    assert [m][..0] == [];
  }

  lemma SealPayload(bs: seq<seq<Msg>>, framed: seq<seq<Msg>>, ms: seq<Msg>, app: bool)
    requires Payload(Flatten(bs)) == Payload(Flatten(framed)) && (app || (|ms| == 1 && ms[0].command))
    ensures Payload(Flatten(bs + [ms])) == Payload(Flatten(if app then framed + [ms] else framed))
  {
    PayloadMore(bs, ms);
    if app {
      PayloadMore(framed, ms);
    } else {
      CommandPayload(ms[0]);
      assert ms == [ms[0]];
    }
  }

  lemma SealSeals(k: Case, a: Account, ms: seq<Msg>, app: bool)
    requires SealsGood(k, a) && Write(a.framer, ms).Some? && (app || (|ms| == 1 && ms[0].command))
    ensures SealsGood(k, Seal(a, ms, app))
  {
    PlainsSnoc(a.batches, ms);
    SealedSnoc(a.framer.cipher.encrypt, a.framer.cipher.sent, EncodeAll(ms));
    SealPayload(a.batches, a.framed, ms, app);
  }

  lemma SealOpens(k: Case, a: Account, ms: seq<Msg>, app: bool)
    requires a.framer.Secure? && OpensGood(k, a) && Write(a.framer, ms).Some?
    ensures OpensGood(k, Seal(a, ms, app))
  {
    var c, left :| Tells(k, a, c, left);
    assert Tells(k, Seal(a, ms, app), c, left);
  }

  lemma SealGood(k: Case, a: Account, ms: seq<Msg>, app: bool)
    requires Good(k, a) && a.framer.Secure? && Write(a.framer, ms).Some? && (app || (|ms| == 1 && ms[0].command))
    ensures Good(k, Seal(a, ms, app))
  {
    SealSeals(k, a, ms, app);
    SealOpens(k, a, ms, app);
  }

  lemma {:induction false} ReadKeepsKeys(f: Framer, max: int, net: Octets)
    requires f.Secure?
    ensures var g := TryRead(f, max, net).framer; g.Secure? && g.cipher == f.cipher.(received := g.cipher.received)
    decreases |net|
  {
    var o := Parse(f.parser, max, f.decrypted);
    if o.res.NeedMore? && FirstBlock(net).Some? {
      var block := FirstBlock(net).value;
      var plain := f.cipher.decrypt(f.cipher.received, block.body);
      if plain.Some? {
        ReadKeepsKeys(Secure(f.cipher.(received := f.cipher.received + [plain.value]), o.state, o.rest + plain.value), max, block.rest);
      }
    }
  }

  /** After a read: data that was found is told, unless the session stops. */
  function Afterwards(a: Account, o: ReadOut, stops: bool): Account {
    var b := a.(framer := o.framer);
    if stops then Halt(b)
    else if o.res.Frame? && !o.res.msg.command then b.(told := a.told + [o.res.msg])
    else b
  }

  lemma ReadSeals(k: Case, a: Account, net: Octets, o: ReadOut, stops: bool)
    requires SealsGood(k, a) && o == TryRead(a.framer, k.max, net)
    ensures SealsGood(k, Afterwards(a, o, stops))
  {
    ReadKeepsKeys(a.framer, k.max, net);
  }

  lemma ReadTruth(k: Case, a: Account, net: Octets, octets: Octets, o: ReadOut)
    requires SealsGood(k, a) && Truthful(k, a.own) && Matching(k.peerSuite, k.suite)
    requires OpenedFrom(a.framer, net, octets) && octets <= k.stream && o == TryRead(a.framer, k.max, net)
    ensures o.framer.Secure? && o.framer.cipher.received <= k.truth
  {
    MatchingUnseals(k.peerSuite, k.suite, Script(k.isServer, a.own, k.peer));
    ReadTrue(a.framer, k.max, net, octets, PeerCipher(k, a.own).encrypt, k.truth);
  }

  lemma ReadTells(k: Case, a: Account, net: Octets, o: ReadOut, stops: bool)
    requires a.framer.Secure? && a.live && OpensGood(k, a)
    requires o == TryRead(a.framer, k.max, net) && (o.res.Failed? ==> stops)
    requires o.framer.Secure? && o.framer.cipher.received <= k.truth
    ensures OpensGood(k, Afterwards(a, o, stops))
  {
    var c, left :| Tells(k, a, c, left);
    var left' := ReadStands(a.framer, k.max, net, c, left);
    var b := Afterwards(a, o, stops);
    if o.res.Frame? {
      PayloadSnoc(c, o.res.msg);
      assert Payload(c) <= Payload(c + [o.res.msg]);
      assert Tells(k, b, c + [o.res.msg], left');
    } else {
      assert Tells(k, b, c, left');
    }
  }

  lemma Assembled(k: Case, b: Account)
    requires Truthful(k, b.own) && SealsGood(k, b) && OpensGood(k, b)
    ensures Good(k, b)
  {
  }

  lemma Parts(k: Case, a: Account)
    requires Good(k, a) && a.framer.Secure?
    ensures Truthful(k, a.own) && SealsGood(k, a) && OpensGood(k, a)
  {
  }

  lemma ReadParts(k: Case, a: Account, net: Octets, octets: Octets, o: ReadOut, stops: bool)
    requires Truthful(k, a.own) && SealsGood(k, a) && OpensGood(k, a) && a.live && Matching(k.peerSuite, k.suite)
    requires OpenedFrom(a.framer, net, octets) && octets <= k.stream
    requires o == TryRead(a.framer, k.max, net) && (o.res.Failed? ==> stops)
    ensures var b := Afterwards(a, o, stops); SealsGood(k, b) && OpensGood(k, b)
  {
    ReadTruth(k, a, net, octets, o);
    ReadSeals(k, a, net, o, stops);
    ReadTells(k, a, net, o, stops);
  }

  /** A read opens only what the peer sealed, and takes the next frame of it. */
  lemma ReadGood(k: Case, a: Account, net: Octets, octets: Octets, o: ReadOut, stops: bool)
    requires Good(k, a) && a.framer.Secure? && a.live && Matching(k.peerSuite, k.suite)
    requires OpenedFrom(a.framer, net, octets) && octets <= k.stream
    requires o == TryRead(a.framer, k.max, net) && (o.res.Failed? ==> stops)
    ensures Good(k, Afterwards(a, o, stops))
  {
    Parts(k, a);
    ReadParts(k, a, net, octets, o, stops);
    Assembled(k, Afterwards(a, o, stops));
  }

  /** Tokens sent in plain. */
  lemma OwnGrows(k: Case, own: seq<Msg>, more: seq<Msg>)
    requires Truthful(k, own) && own <= more && |more| <= Writes(k.isServer)
    ensures Truthful(k, more)
  {
    if k.truth != [] {
      assert more == own;
    }
  }

  /** The change to encryption. */
  function Switched(k: Case, a: Account): Account
    requires AllTokens(k, a.own)
  {
    a.(framer := Secure(OwnCipher(k, a.own), ReadHeader, []), live := true, transcript := None)
  }

  lemma SwitchGood(k: Case, a: Account)
    requires Good(k, a) && a.framer.Plain? && AllTokens(k, a.own)
    ensures Good(k, Switched(k, a))
  {
    var b := Switched(k, a);
    assert Plains([]) == [] && Flatten([]) == [] && Concat([]) == [];
    assert Tells(k, b, [], []);
  }

  // --- The peer goes on ---

  predicate Extends(k: Case, l: Case) {
    && l.isServer == k.isServer && l.max == k.max
    && k.peer <= l.peer && |l.peer| <= Reads(k.isServer) && k.truth <= l.truth
  }

  lemma PeerGood(k: Case, l: Case, a: Account)
    requires Good(k, a) && Extends(k, l) && l.suite == k.suite && l.peerSuite == k.peerSuite && Truthful(l, a.own)
    ensures Good(l, a)
  {
    if a.framer.Secure? {
      assert l.peer == k.peer;
      var c, left :| Tells(k, a, c, left);
      assert Tells(l, a, c, left);
    }
  }

  /** What the peer's account says of its stream. */
  lemma GoodTruth(k: Case, a: Account, l: Case, own: seq<Msg>)
    requires Good(k, a) && l.isServer == !k.isServer && l.peer == a.own && l.stream == a.secured && l.truth == Plains(a.batches)
    requires k.peer == own && l.peerSuite == k.suite
    ensures Truthful(l, own)
  {
    if a.framer.Secure? && a.batches != [] {
      ScriptsAgree(k.isServer, a.own, own);
    }
  }

  lemma ToldWasSealed(k: Case, a: Account, bs: seq<seq<Msg>>)
    requires a.framer.Secure? && OpensGood(k, a) && k.truth == Plains(bs) && AllSized(Flatten(bs))
    ensures a.told <= Payload(Flatten(bs))
  {
    var c, left :| Tells(k, a, c, left);
    TakenAreWritten(a.framer, k.max, c, left, bs);
    PayloadPrefix(c, Flatten(bs));
  }

  lemma FramedIs(l: Case, b: Account)
    requires Good(l, b)
    ensures Payload(Flatten(b.batches)) == Payload(Flatten(b.framed))
  {
  }

  /** What was told at one end was framed at the other. */
  lemma ToldWasFramed(k: Case, a: Account, l: Case, b: Account)
    requires Good(k, a) && Good(l, b) && k.truth == Plains(b.batches) && AllSized(Flatten(b.batches))
    ensures a.told <= Payload(Flatten(b.framed))
  {
    if a.framer.Secure? {
      ToldWasSealed(k, a, b.batches);
      FramedIs(l, b);
    }
  }
}
