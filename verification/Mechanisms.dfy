/** Choosing and driving a security mechanism (security/mod.rs and the Mechanism trait). */
module Mechanisms {
  import opened Bytes
  import opened Greeting
  import opened Framers
  import opened PlainAuth
  import opened NoiseXx

  datatype NoiseKeys = NoiseKeys(localKey: bool, remoteKey: Option<Octets>, suite: Suite)

  /** The security part of the engine configuration. */
  datatype SecurityConfig = SecurityConfig(
    usePlain: bool,
    username: Option<Octets>,
    password: Option<Octets>,
    noise: Option<NoiseKeys>)

  predicate NullOnly(c: SecurityConfig) { !c.usePlain && c.noise.None? }

  datatype Mechanism = NullMech | PlainM(plain: PlainMech) | NoiseM(noise: NoiseMech)

  /** The mechanism named in our greeting. NOISE_XX is only proposed with the keys the role needs. */
  function Proposed(c: SecurityConfig, isServer: bool): MechanismName {
    if c.noise.Some? && c.noise.value.localKey && (isServer || c.noise.value.remoteKey.Some?) then NoiseName()
    else if c.usePlain then PlainName()
    else NullName()
  }

  /** The mechanism to run for the peer's proposal; `None` is a security error. */
  function Negotiate(c: SecurityConfig, isServer: bool, name: MechanismName): Option<Mechanism> {
    if name == NullName() then
      if NullOnly(c) then Some(NullMech) else None
    else if name == PlainName() then
      if c.usePlain then Some(PlainM(PlainStart(isServer, c.username, c.password))) else None
    else if name == NoiseName() then
      if c.noise.Some? && c.noise.value.localKey then
        match NoiseStart(isServer, c.noise.value.suite, c.noise.value.remoteKey)
        case None => None
        case Some(n) => Some(NoiseM(n))
      else None
    else None
  }

  predicate Complete(m: Mechanism) {
    match m
    case NullMech => true
    case PlainM(p) => p.phase == PlainReady
    case NoiseM(n) => n.status == Ready
  }

  predicate InError(m: Mechanism) {
    match m
    case NullMech => false
    case PlainM(p) => p.phase == PlainError
    case NoiseM(n) => n.status == Errored
  }

  datatype MechProduced = MechProduced(mech: Mechanism, ok: bool, token: Option<Octets>)

  function ProduceToken(m: Mechanism): MechProduced {
    match m
    case NullMech => MechProduced(m, true, None)
    case PlainM(p) => var r := ProducePlain(p); MechProduced(PlainM(r.mech), true, r.token)
    case NoiseM(n) => var r := ProduceNoise(n); MechProduced(NoiseM(r.mech), r.ok, r.token)
  }

  datatype MechProcessed = MechProcessed(mech: Mechanism, ok: bool)

  function ProcessToken(m: Mechanism, token: Octets): MechProcessed {
    match m
    case NullMech => MechProcessed(m, true)
    case PlainM(p) => var r := ProcessPlain(p, token); MechProcessed(PlainM(r.mech), !r.action.Refused?)
    case NoiseM(n) => var r := ProcessNoise(n, token); MechProcessed(NoiseM(r.mech), !r.action.Refused?)
  }

  datatype Finished = Finished(framer: Framer, peer: Option<Octets>)

  function IntoFramer(m: Mechanism): Option<Finished> {
    match m
    case NullMech => Some(Finished(Plain(Frames.ReadHeader), None))
    case PlainM(p) =>
      if p.phase == PlainReady then Some(Finished(Plain(Frames.ReadHeader), p.username)) else None
    case NoiseM(n) =>
      match NoiseFramer(n)
      case None => None
      case Some(f) => Some(Finished(f, n.verified))
  }

  /** An upper bound on the tokens a mechanism can still produce or accept. */
  function StepsLeft(m: Mechanism): nat {
    match m
    case NullMech => 0
    case PlainM(p) =>
      (match p.phase
       case ClientSendHello => 2
       case ClientExpectWelcome => 1
       case ServerExpectHello => 2
       case ServerSendWelcome => 1
       case _ => 0)
    case NoiseM(n) =>
      (if n.pending.Some? then 1 else 0)
      + (if n.state.Some? && |n.state.value.transcript| < 3 then 2 * (3 - |n.state.value.transcript|) else 0)
  }

  /** Every token produced is one of the bounded number, and nothing raises the bound. */
  lemma ProduceUsesStep(m: Mechanism)
    ensures var r := ProduceToken(m);
            StepsLeft(r.mech) <= StepsLeft(m) && (r.token.Some? ==> StepsLeft(r.mech) < StepsLeft(m))
  {
  }

  lemma ProcessUsesStep(m: Mechanism, token: Octets)
    ensures StepsLeft(ProcessToken(m, token).mech) <= StepsLeft(m)
  {
  }

  predicate SameKind(m: Mechanism, n: Mechanism) {
    (m.NullMech? <==> n.NullMech?) && (m.PlainM? <==> n.PlainM?)
  }

  /** Each end runs what the other proposed, yet two ends that both find a mechanism found the same
      one; they both find one exactly when they propose the same and, for NULL, have nothing else enabled. */
  lemma NegotiationAgrees(c: SecurityConfig, d: SecurityConfig, isServer: bool)
    ensures var mine, theirs := Negotiate(c, isServer, Proposed(d, !isServer)), Negotiate(d, !isServer, Proposed(c, isServer));
            && (mine.Some? && theirs.Some? ==> SameKind(mine.value, theirs.value))
            && (mine.Some? && theirs.Some? <==>
                  && Proposed(c, isServer) == Proposed(d, !isServer)
                  && (Proposed(c, isServer) == NullName() ==> NullOnly(c) && NullOnly(d)))
  {
  }
}
