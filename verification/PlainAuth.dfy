/** The PLAIN mechanism (security/plain.rs): HELLO with credentials, answered by WELCOME. */
module PlainAuth {
  import opened Bytes

  datatype PlainPhase =
    | ClientSendHello
    | ClientExpectWelcome
    | ServerExpectHello
    | ServerSendWelcome
    | PlainReady
    | PlainError

  datatype PlainMech = PlainMech(
    isServer: bool,
    phase: PlainPhase,
    username: Option<Octets>,
    password: Option<Octets>,
    expectedUsername: Option<Octets>,
    expectedPassword: Option<Octets>)

  /** What a mechanism tells its caller after a token; `Refused` is an error return. */
  datatype TokenAction = ContinueWaiting | ProduceAndSend | HandshakeComplete | Refused

  const HELLO: Octets := [72, 69, 76, 76, 79]
  const WELCOME: Octets := [87, 69, 76, 67, 79, 77, 69]

  function PlainStart(isServer: bool, username: Option<Octets>, password: Option<Octets>): PlainMech {
    if isServer then PlainMech(true, ServerExpectHello, None, None, username, password)
    else PlainMech(false, ClientSendHello, username, password, None, None)
  }

  // --- HELLO bodies ---

  datatype Credentials = Credentials(username: Octets, password: Octets)

  function ParseHello(body: Octets): Option<Credentials> {
    if |body| < 2 then None
    else
      var u: nat := body[0];
      if |body| - 1 < u + 1 then None
      else
        var p: nat := body[1 + u];
        if |body| - 2 - u < p then None
        else Some(Credentials(body[1..1 + u], body[2 + u..2 + u + p]))
  }

  /** Credentials are cut to 255 octets before they are sent. */
  function Cut(s: Octets): (c: Octets)
    ensures |c| <= 255
  {
    if |s| <= 255 then s else s[..255]
  }

  function CreateHello(username: Octets, password: Octets): Octets {
    [|Cut(username)|] + Cut(username) + [|Cut(password)|] + Cut(password)
  }

  /** A parsed HELLO holds exactly the cut credentials; octets after them are ignored. */
  lemma HelloRoundTrip(username: Octets, password: Octets, trailing: Octets)
    ensures ParseHello(CreateHello(username, password) + trailing) == Some(Credentials(Cut(username), Cut(password)))
  {
    var u, p := Cut(username), Cut(password);
    var body := CreateHello(username, password) + trailing;
    assert body[0] == |u| && body[1..1 + |u|] == u;
    assert body[1 + |u|] == |p| && body[2 + |u|..2 + |u| + |p|] == p;
  }

  /** Conversely, a body that parses starts with the HELLO of what it parses to. */
  lemma ParsedHelloIsCanonical(body: Octets)
    ensures ParseHello(body).Some? ==>
              var c := ParseHello(body).value;
              CreateHello(c.username, c.password) <= body
  {
    if ParseHello(body).Some? {
      var c := ParseHello(body).value;
      var n, m := |c.username|, |c.password|;
      assert n == body[0] && m == body[1 + n];
      assert body[..2 + n + m] == [body[0]] + body[1..1 + n] + [body[1 + n]] + body[2 + n..2 + n + m];
    }
  }

  // --- Tokens ---

  function Token(name: Octets, body: Octets): Octets
    requires |name| <= 255
  {
    [|name|] + name + body
  }

  predicate WellFormed(token: Octets) {
    token != [] && token[0] < |token|
  }

  function NameOf(token: Octets): Octets
    requires WellFormed(token)
  {
    token[1..1 + token[0]]
  }

  function BodyOf(token: Octets): Octets
    requires WellFormed(token)
  {
    token[1 + token[0]..]
  }

  lemma TokenParts(name: Octets, body: Octets)
    requires |name| <= 255
    ensures var t := Token(name, body); WellFormed(t) && NameOf(t) == name && BodyOf(t) == body
  {
  }

  predicate Accepts(p: PlainMech, c: Credentials) {
    p.expectedUsername == Some(c.username) && p.expectedPassword == Some(c.password)
  }

  datatype Processed = Processed(mech: PlainMech, action: TokenAction)

  function ProcessPlain(p: PlainMech, token: Octets): Processed {
    var refused := Processed(p.(phase := PlainError), Refused);
    if !WellFormed(token) then refused
    else if p.isServer then
      if p.phase == ServerExpectHello && NameOf(token) == HELLO then
        match ParseHello(BodyOf(token))
        case None => refused
        case Some(c) =>
          if Accepts(p, c) then
            Processed(p.(username := Some(c.username), password := Some(c.password), phase := ServerSendWelcome),
                      ProduceAndSend)
          else refused
      else refused
    else
      if p.phase == ClientExpectWelcome && NameOf(token) == WELCOME then
        Processed(p.(phase := PlainReady), HandshakeComplete)
      else refused
  }

  datatype Produced = Produced(mech: PlainMech, token: Option<Octets>)

  function OrEmpty(o: Option<Octets>): Octets {
    if o.Some? then o.value else []
  }

  function ProducePlain(p: PlainMech): Produced {
    match p.phase
    case ClientSendHello =>
      Produced(p.(phase := ClientExpectWelcome),
               Some(Token(HELLO, CreateHello(OrEmpty(p.username), OrEmpty(p.password)))))
    case ServerSendWelcome => Produced(p.(phase := PlainReady), Some(Token(WELCOME, [])))
    case _ => Produced(p, None)
  }

  /** The mechanism as the source keeps it: an object updated by each token. */
  class PlainMechanism {
    const isServer: bool
    var phase: PlainPhase
    var username: Option<Octets>
    var password: Option<Octets>
    var expectedUsername: Option<Octets>
    var expectedPassword: Option<Octets>

    ghost function Value(): PlainMech
      reads this
    {
      PlainMech(isServer, phase, username, password, expectedUsername, expectedPassword)
    }

    constructor (isServer: bool, user: Option<Octets>, pass: Option<Octets>)
      ensures Value() == PlainStart(isServer, user, pass)
    {
      this.isServer := isServer;
      phase := if isServer then ServerExpectHello else ClientSendHello;
      username, password, expectedUsername, expectedPassword := None, None, None, None;
      if isServer {
        expectedUsername, expectedPassword := user, pass;
      } else {
        username, password := user, pass;
      }
    }

    method SetError()
      modifies this`phase
      ensures phase == PlainError
    {
      phase := PlainError;
    }

    method ProcessToken(token: Octets) returns (action: TokenAction)
      modifies this
      ensures Processed(Value(), action) == ProcessPlain(old(Value()), token)
    {
      action := Refused;
      if token == [] || |token| <= token[0] {
        SetError();
        return;
      }
      var name, body := token[1..1 + token[0]], token[1 + token[0]..];
      if isServer && phase == ServerExpectHello && name == HELLO {
        var c := ParseHello(body);
        if c.Some? && expectedUsername == Some(c.value.username) && expectedPassword == Some(c.value.password) {
          username, password := Some(c.value.username), Some(c.value.password);
          phase := ServerSendWelcome;
          action := ProduceAndSend;
          return;
        }
      } else if !isServer && phase == ClientExpectWelcome && name == WELCOME {
        phase := PlainReady;
        action := HandshakeComplete;
        return;
      }
      SetError();
    }

    method ProduceToken() returns (token: Option<Octets>)
      modifies this`phase
      ensures Produced(Value(), token) == ProducePlain(old(Value()))
    {
      match phase {
        case ClientSendHello =>
          var body := CreateHello(OrEmpty(username), OrEmpty(password));
          token := Some([5] + HELLO + body);
          phase := ClientExpectWelcome;
        case ServerSendWelcome =>
          token := Some([7] + WELCOME + []);
          phase := PlainReady;
        case _ =>
          token := None;
      }
    }
  }

  // --- Every run ---

  datatype PlainOp = GiveToken(token: Octets) | AskToken

  function StepPlain(p: PlainMech, op: PlainOp): PlainMech {
    match op
    case GiveToken(token) => ProcessPlain(p, token).mech
    case AskToken => ProducePlain(p).mech
  }

  function RunPlain(p: PlainMech, ops: seq<PlainOp>): PlainMech {
    if ops == [] then p else StepPlain(RunPlain(p, ops[..|ops| - 1]), ops[|ops| - 1])
  }

  /** A HELLO carrying these credentials. */
  predicate IsHelloFor(token: Octets, username: Octets, password: Octets) {
    && WellFormed(token) && NameOf(token) == HELLO
    && ParseHello(BodyOf(token)) == Some(Credentials(username, password))
  }

  /** Whatever tokens arrive, a server that has accepted holds exactly the credentials it expects,
      and it was given them in a HELLO. */
  lemma {:induction false} ServerReadyMeansAuthenticated(username: Option<Octets>, password: Option<Octets>, ops: seq<PlainOp>)
    ensures var p := RunPlain(PlainStart(true, username, password), ops);
            && p.isServer && p.expectedUsername == username && p.expectedPassword == password
            && (p.phase == PlainReady || p.phase == ServerSendWelcome ==>
                  && username.Some? && password.Some?
                  && p.username == username && p.password == password
                  && exists i :: 0 <= i < |ops| && ops[i].GiveToken?
                                 && IsHelloFor(ops[i].token, username.value, password.value))
            && p.phase != ClientSendHello && p.phase != ClientExpectWelcome
    decreases |ops|
  {
    if ops != [] {
      var before, op := ops[..|ops| - 1], ops[|ops| - 1];
      ServerReadyMeansAuthenticated(username, password, before);
      var p := RunPlain(PlainStart(true, username, password), before);
      var q := StepPlain(p, op);
      if q.phase == PlainReady || q.phase == ServerSendWelcome {
        if p.phase == ServerExpectHello {
          assert IsHelloFor(ops[|ops| - 1].token, username.value, password.value);
        } else {
          var i :| 0 <= i < |before| && before[i].GiveToken? && IsHelloFor(before[i].token, username.value, password.value);
          assert ops[i] == before[i];
        }
      }
    }
  }

  /** An error is final in both roles, and nothing is ever sent from it. */
  lemma {:induction false} ErrorAbsorbs(p: PlainMech, ops: seq<PlainOp>)
    requires p.phase == PlainError
    ensures RunPlain(p, ops).phase == PlainError && ProducePlain(RunPlain(p, ops)).token.None?
    decreases |ops|
  {
    if ops != [] {
      ErrorAbsorbs(p, ops[..|ops| - 1]);
    }
  }

  datatype Pair = Pair(client: PlainMech, server: PlainMech)

  /** The exchange between an honest client and server: HELLO, then WELCOME if there is one. */
  function Exchange(client: PlainMech, server: PlainMech): Pair {
    var hello := ProducePlain(client);
    match hello.token
    case None => Pair(client, server)
    case Some(token) =>
      var accepted := ProcessPlain(server, token).mech;
      var welcome := ProducePlain(accepted);
      match welcome.token
      case None => Pair(hello.mech, welcome.mech)
      case Some(answer) => Pair(ProcessPlain(hello.mech, answer).mech, welcome.mech)
  }

  /** Both ends become ready exactly when the server expects what the client's credentials are
      cut to; otherwise the server has failed and the client is still waiting. */
  lemma HonestPair(username: Option<Octets>, password: Option<Octets>, expectedUser: Option<Octets>, expectedPass: Option<Octets>)
    ensures var x := Exchange(PlainStart(false, username, password), PlainStart(true, expectedUser, expectedPass));
            var match_ := expectedUser == Some(Cut(OrEmpty(username))) && expectedPass == Some(Cut(OrEmpty(password)));
            && (x.client.phase == PlainReady <==> match_)
            && (x.server.phase == PlainReady <==> match_)
            && (!match_ ==> x.server.phase == PlainError && x.client.phase == ClientExpectWelcome)
  {
    var u, p := OrEmpty(username), OrEmpty(password);
    TokenParts(HELLO, CreateHello(u, p));
    HelloRoundTrip(u, p, []);
    assert CreateHello(u, p) + [] == CreateHello(u, p);
    TokenParts(WELCOME, []);
  }

  /** Credentials the wire format can carry authenticate exactly when they are the expected ones. */
  lemma ShortCredentialsMustMatch(user: Octets, pass: Octets, expectedUser: Octets, expectedPass: Octets)
    requires |user| <= 255 && |pass| <= 255
    ensures var x := Exchange(PlainStart(false, Some(user), Some(pass)), PlainStart(true, Some(expectedUser), Some(expectedPass)));
            (x.client.phase == PlainReady && x.server.phase == PlainReady) <==> (user == expectedUser && pass == expectedPass)
  {
    HonestPair(Some(user), Some(pass), Some(expectedUser), Some(expectedPass));
  }
}
