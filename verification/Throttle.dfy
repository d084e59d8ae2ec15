/** The adaptive throttle (throttle/mod.rs and throttle/strategies.rs), over the reals. */
module Throttle {

  datatype Direction = Ingress | Egress

  datatype Priority = EgressFirst | IngressFirst | NoPriority

  /** `power` takes a number between 0 and 1 to the power of the curve factor. */
  datatype Strategy = Linear | PowerCurve(power: real -> real)

  datatype Config = Config(
    credit: int,
    healthy: nat,
    maxImbalance: nat,
    yieldAfter: nat,
    nudgeInterval: nat,
    rate: real,
    strategy: Strategy,
    priority: Priority,
    boost: real)

  const U32 := 0x1_0000_0000
  const I32_MAX := 0x7FFF_FFFF
  const I32_MIN := -0x8000_0000

  predicate InI32(x: int) { I32_MIN <= x <= I32_MAX }

  function Wrap32(x: int): (r: int)
    ensures InI32(r) && (InI32(x) ==> r == x)
  {
    var m := x % U32;
    if m > I32_MAX then m - U32 else m
  }

  /** Thirty-two bit fields. */
  predicate ConfigOk(c: Config) {
    InI32(c.credit) && c.healthy < U32 && c.maxImbalance < U32 && c.yieldAfter < U32 && c.nudgeInterval < U32
  }

  /** The learning rate is brought into its range when the throttle is made. */
  function Clamped(c: Config): Config {
    if c.rate < 0.01 then c.(rate := 0.01) else if c.rate > 0.2 then c.(rate := 0.2) else c
  }

  datatype State = State(balance: int, learned: real, ingress: nat, egress: nat, sinceNudge: nat)

  function NewState(): State { State(0, 0.0, 0, 0, 0) }

  function Moved(c: Config, s: State, d: Direction): int {
    Wrap32(if d.Ingress? then s.balance + c.credit else s.balance - c.credit)
  }

  /** `begin_work`: the balance moves, now and then the average follows, and the streak of this
      direction grows while the other ends. */
  function Begin(c: Config, s: State, d: Direction): State {
    var balance := Moved(c, s, d);
    var since := (s.sinceNudge + 1) % U32;
    var nudged := since >= c.nudgeInterval;
    State(
      balance,
      if nudged then c.rate * (balance as real) + (1.0 - c.rate) * s.learned else s.learned,
      if d.Ingress? then (s.ingress + 1) % U32 else 0,
      if d.Egress? then (s.egress + 1) % U32 else 0,
      if nudged then 0 else since)
  }

  function Abs(x: real): real { if x < 0.0 then -x else x }

  function Deviation(s: State): real { Abs(s.balance as real - s.learned) }

  /** The room above the healthy width; the subtraction is of unsigned words. */
  function Span(c: Config): real { ((c.maxImbalance - c.healthy) % U32) as real }

  function Severity(c: Config, s: State): real {
    if Deviation(s) > c.healthy as real then Deviation(s) - c.healthy as real else 0.0
  }

  function Probability(c: Config, s: State): real {
    if Span(c) <= 0.0 then (if Severity(c, s) > 0.0 then 1.0 else 0.0)
    else
      var x := if Severity(c, s) >= Span(c) then 1.0 else Severity(c, s) / Span(c);
      match c.strategy
      case Linear => x
      case PowerCurve(power) => power(x)
  }

  /** A conversion to a 32-bit integer drops the fraction and stays in range. */
  function Truncated(x: real): int {
    var n := if x >= 0.0 then x.Floor else -((-x).Floor);
    if n > I32_MAX then I32_MAX else if n < I32_MIN then I32_MIN else n
  }

  /** Work of the other direction while the balance calls for the preferred one. */
  predicate Boosted(c: Config, s: State, d: Direction) {
    match c.priority
    case EgressFirst => d.Ingress? && s.balance > Truncated(s.learned)
    case IngressFirst => d.Egress? && s.balance < Truncated(s.learned)
    case NoPriority => false
  }

  function Chance(c: Config, s: State, d: Direction): real {
    if Deviation(s) >= (2 * c.maxImbalance) as real then 1.0
    else if Boosted(c, s, d) then Probability(c, s) * c.boost
    else Probability(c, s)
  }

  function Streak(s: State, d: Direction): nat { if d.Ingress? then s.ingress else s.egress }

  predicate HardCap(c: Config, s: State, d: Direction) { Streak(s, d) >= c.yieldAfter }

  /** `should_throttle` with the random number drawn. */
  predicate Yields(c: Config, s: State, d: Direction, draw: real) {
    HardCap(c, s, d) || ByChance(c, s, d, draw)
  }

  predicate ByChance(c: Config, s: State, d: Direction, draw: real) { draw < Chance(c, s, d) }

  function Settled(c: Config, s: State, d: Direction, draw: real): State {
    if Yields(c, s, d, draw) then s.(ingress := 0, egress := 0) else s
  }

  datatype Cycle = Cycle(dir: Direction, draw: real)

  function OneCycle(c: Config, s: State, w: Cycle): State {
    Settled(c, Begin(c, s, w.dir), w.dir, w.draw)
  }

  predicate YieldsIn(c: Config, s: State, w: Cycle) {
    Yields(c, Begin(c, s, w.dir), w.dir, w.draw)
  }

  function Run(c: Config, s: State, ws: seq<Cycle>): State {
    if ws == [] then s else OneCycle(c, Run(c, s, ws[..|ws| - 1]), ws[|ws| - 1])
  }

  // --- Fairness ---

  /** Between cycles no streak has reached the cap. */
  predicate BelowCap(c: Config, s: State) {
    && (s.ingress < c.yieldAfter || s.ingress == 0)
    && (s.egress < c.yieldAfter || s.egress == 0)
  }

  lemma CycleBelowCap(c: Config, s: State, w: Cycle)
    requires ConfigOk(c) && BelowCap(c, s)
    ensures BelowCap(c, OneCycle(c, s, w))
    ensures !YieldsIn(c, s, w) ==> Streak(OneCycle(c, s, w), w.dir) == Streak(s, w.dir) + 1
  {
  }

  lemma {:induction false} RunBelowCap(c: Config, ws: seq<Cycle>)
    requires ConfigOk(c)
    ensures BelowCap(c, Run(c, NewState(), ws))
  {
  }

  lemma RunSnoc(c: Config, s: State, ws: seq<Cycle>, k: nat)
    requires k < |ws|
    ensures Run(c, s, ws[..k + 1]) == OneCycle(c, Run(c, s, ws[..k]), ws[k])
  {
    assert ws[..k + 1][..k] == ws[..k];
  }

  /** Without a yield a streak grows with every cycle of its direction. */
  lemma {:induction false} StreakGrows(c: Config, s: State, ws: seq<Cycle>, k: nat, d: Direction)
    requires ConfigOk(c) && BelowCap(c, s) && k <= |ws|
    requires forall i :: 0 <= i < k ==> ws[i].dir == d && !YieldsIn(c, Run(c, s, ws[..i]), ws[i])
    ensures BelowCap(c, Run(c, s, ws[..k])) && Streak(Run(c, s, ws[..k]), d) == Streak(s, d) + k
    decreases k
  {
    if k == 0 {
      assert ws[..0] == [];
    } else {
      StreakGrows(c, s, ws, k - 1, d);
      RunSnoc(c, s, ws, k - 1);
      CycleBelowCap(c, Run(c, s, ws[..k - 1]), ws[k - 1]);
    }
  }

  /** The main result: whatever came before and whatever is drawn, as many cycles of one direction
      in a row as the cap allows contain a yield. */
  lemma FairnessBound(c: Config, before: seq<Cycle>, ws: seq<Cycle>, d: Direction)
    requires ConfigOk(c) && |ws| >= c.yieldAfter && |ws| > 0
    requires forall i :: 0 <= i < |ws| ==> ws[i].dir == d
    ensures exists i :: 0 <= i < |ws| && YieldsIn(c, Run(c, Run(c, NewState(), before), ws[..i]), ws[i])
  {
    var s := Run(c, NewState(), before);
    RunBelowCap(c, before);
    if forall i :: 0 <= i < |ws| ==> !YieldsIn(c, Run(c, s, ws[..i]), ws[i]) {
      StreakGrows(c, s, ws, |ws|, d);
    }
  }

  // --- The learned balance ---

  /** The balances seen by a run, after each cycle's move. */
  function Observed(c: Config, ws: seq<Cycle>): seq<int> {
    if ws == [] then []
    else
      var most := ws[..|ws| - 1];
      Observed(c, most) + [Moved(c, Run(c, NewState(), most), ws[|ws| - 1].dir)]
  }

  function Highest(xs: seq<int>): (h: int)
    ensures h >= 0 && forall i :: 0 <= i < |xs| ==> xs[i] <= h
  {
    if xs == [] then 0
    else var h := Highest(xs[..|xs| - 1]); if xs[|xs| - 1] > h then xs[|xs| - 1] else h
  }

  function Lowest(xs: seq<int>): (l: int)
    ensures l <= 0 && forall i :: 0 <= i < |xs| ==> xs[i] >= l
  {
    if xs == [] then 0
    else var l := Lowest(xs[..|xs| - 1]); if xs[|xs| - 1] < l then xs[|xs| - 1] else l
  }

  lemma Product(a: real, b: real)
    requires a >= 0.0 && b >= 0.0
    ensures a * b >= 0.0
  {
  }

  lemma Mix(a: real, x: real, y: real, z: real)
    ensures z - (a * x + (1.0 - a) * y) == a * (z - x) + (1.0 - a) * (z - y)
  {
  }

  lemma Between(a: real, x: real, y: real, low: real, high: real)
    requires 0.0 <= a <= 1.0 && low <= x <= high && low <= y <= high
    ensures low <= a * x + (1.0 - a) * y <= high
  {
    Mix(a, x, y, high);
    Product(a, high - x);
    Product(1.0 - a, high - y);
    Mix(a, x, y, low);
    Product(a, x - low);
    Product(1.0 - a, y - low);
    Opposite(a, x, low);
    Opposite(1.0 - a, y, low);
  }

  lemma Opposite(a: real, x: real, y: real)
    ensures a * (y - x) == -(a * (x - y))
  {
  }

  lemma LearnedStep(c: Config, s: State, d: Direction, low: int, high: int)
    requires 0.0 <= c.rate <= 1.0 && low <= Moved(c, s, d) <= high && low as real <= s.learned <= high as real
    ensures low as real <= Begin(c, s, d).learned <= high as real
  {
    Between(c.rate, Moved(c, s, d) as real, s.learned, low as real, high as real);
  }

  lemma HullGrows(xs: seq<int>, x: int)
    ensures Lowest(xs + [x]) <= Lowest(xs) && Highest(xs) <= Highest(xs + [x])
    ensures Lowest(xs + [x]) <= x <= Highest(xs + [x])
  {
  }

  /** The learned balance never leaves the interval spanned by 0 and the balances observed. */
  lemma {:induction false} LearnedInHull(c: Config, ws: seq<Cycle>)
    ensures var xs := Observed(Clamped(c), ws);
            Lowest(xs) as real <= Run(Clamped(c), NewState(), ws).learned <= Highest(xs) as real
  {
    var cc := Clamped(c);
    if ws != [] {
      var most, d := ws[..|ws| - 1], ws[|ws| - 1].dir;
      LearnedInHull(c, most);
      var s := Run(cc, NewState(), most);
      var xs := Observed(cc, most);
      HullGrows(xs, Moved(cc, s, d));
      LearnedStep(cc, s, d, Lowest(Observed(cc, ws)), Highest(Observed(cc, ws)));
      assert Run(cc, NewState(), ws).learned == Begin(cc, s, d).learned;
    }
  }

  // --- When it yields by chance ---

  /** A positive curve factor. */
  ghost predicate IsCurve(strategy: Strategy) {
    strategy.PowerCurve? ==>
      && strategy.power(0.0) == 0.0 && strategy.power(1.0) == 1.0
      && forall x: real :: 0.0 <= x < 1.0 ==> 0.0 <= strategy.power(x) < 1.0
  }

  /** The state a cycle decides on, after the cycles `ws`. */
  function After(c: Config, ws: seq<Cycle>, d: Direction): State { Begin(c, Run(c, NewState(), ws), d) }

  /** In the first `n` cycles of any run, no draw makes the throttle yield by chance inside the
      healthy band. */
  ghost predicate QuietWithin(c: Config, n: nat) {
    forall ws: seq<Cycle>, d: Direction, draw: real ::
      |ws| < n && 0.0 <= draw < 1.0 && Deviation(After(c, ws, d)) <= c.healthy as real ==> !ByChance(c, After(c, ws, d), d, draw)
  }

  /** In the first `n` cycles of any run, every draw makes it yield at the maximal imbalance and beyond. */
  ghost predicate CertainWithin(c: Config, n: nat) {
    forall ws: seq<Cycle>, d: Direction, draw: real ::
      |ws| < n && 0.0 <= draw < 1.0 && Deviation(After(c, ws, d)) >= c.maxImbalance as real ==> ByChance(c, After(c, ws, d), d, draw)
  }

  lemma InBandChance(c: Config, s: State, d: Direction)
    requires IsCurve(c.strategy) && Deviation(s) < (2 * c.maxImbalance) as real && Deviation(s) <= c.healthy as real
    ensures Chance(c, s, d) == 0.0
  {
    assert Severity(c, s) == 0.0;
    assert Probability(c, s) == 0.0;
  }

  lemma Quiet(c: Config, s: State, d: Direction)
    requires IsCurve(c.strategy) && Deviation(s) < (2 * c.maxImbalance) as real
    ensures forall draw: real :: 0.0 <= draw < 1.0 && Deviation(s) <= c.healthy as real ==> !ByChance(c, s, d, draw)
  {
    if Deviation(s) <= c.healthy as real {
      InBandChance(c, s, d);
    }
  }

  /** In runs of any length: it is quiet in a healthy band that ends before twice the maximum. */
  lemma NarrowIsQuiet(c: Config, n: nat)
    requires IsCurve(c.strategy) && c.healthy < 2 * c.maxImbalance
    ensures QuietWithin(c, n)
  {
    forall ws: seq<Cycle>, d: Direction, draw: real
      | |ws| < n && 0.0 <= draw < 1.0 && Deviation(After(c, ws, d)) <= c.healthy as real
      ensures !ByChance(c, After(c, ws, d), d, draw)
    {
      Quiet(c, After(c, ws, d), d);
    }
  }

  predicate Decisive(c: Config) { c.maxImbalance > c.healthy && (c.boost >= 1.0 || c.priority.NoPriority?) }

  lemma CertainState(c: Config, s: State, d: Direction)
    requires ConfigOk(c) && IsCurve(c.strategy) && Deviation(s) >= c.maxImbalance as real
    requires c.maxImbalance == 0 || Decisive(c)
    ensures Chance(c, s, d) >= 1.0
  {
  }

  /** In runs of any length: it is certain from the maximum on, if that lies beyond the healthy
      width and the boost does not weaken it, or is zero. */
  lemma DecisiveIsCertain(c: Config, n: nat)
    requires ConfigOk(c) && IsCurve(c.strategy) && (c.maxImbalance == 0 || Decisive(c))
    ensures CertainWithin(c, n)
  {
    forall ws: seq<Cycle>, d: Direction, draw: real
      | |ws| < n && 0.0 <= draw < 1.0 && Deviation(After(c, ws, d)) >= c.maxImbalance as real
      ensures ByChance(c, After(c, ws, d), d, draw)
    {
      CertainState(c, After(c, ws, d), d);
    }
  }

  // --- The farthest a run can deviate ---

  function Credit(c: Config): (k: int)
    ensures k >= 0
  {
    if c.credit < 0 then -c.credit else c.credit
  }

  /** The largest balance after `n` cycles. */
  function Farthest(c: Config, n: nat): int { if n == 0 then 0 else Farthest(c, n - 1) + Credit(c) }

  lemma {:induction false} FarthestGrows(c: Config, a: nat, b: nat)
    requires a <= b
    ensures 0 <= Farthest(c, a) <= Farthest(c, b)
    decreases b
  {
    if b > 0 {
      FarthestGrows(c, if a < b then a else a - 1, b - 1);
    }
  }

  /** How far the average is behind, and the cycles since it last moved. */
  datatype Lag = Lag(gap: real, since: nat)

  /** What a move of the average leaves of a gap. */
  function Catch(c: Config): real -> real { x => (1.0 - c.rate) * x }

  function LagNext(c: Config, catch_: real -> real, l: Lag): Lag {
    var gap, since := l.gap + Credit(c) as real, (l.since + 1) % U32;
    if since >= c.nudgeInterval then Lag(catch_(gap), 0) else Lag(gap, since)
  }

  /** The lag when every cycle goes the same way. */
  function LagUnder(c: Config, catch_: real -> real, n: nat): Lag {
    if n == 0 then Lag(0.0, 0) else LagNext(c, catch_, LagUnder(c, catch_, n - 1))
  }

  function Lagging(c: Config, n: nat): real { LagUnder(c, Catch(c), n).gap }

  function Gap(s: State): real { s.balance as real - s.learned }

  /** What is used of catching up: it is odd, monotone and shrinks. */
  ghost predicate CatchesUp(catch_: real -> real) {
    && (forall x: real, y: real :: -y <= x <= y ==> -catch_(y) <= catch_(x) <= catch_(y) <= y)
    && (forall x: real :: catch_(-x) == -catch_(x))
  }

  lemma Scaled(k: real, x: real, y: real)
    requires 0.0 <= k <= 1.0 && -y <= x <= y
    ensures -(k * y) <= k * x <= k * y <= y
  {
    Product(k, y - x);
    Product(k, y + x);
    Product(1.0 - k, y);
  }

  lemma Odd(k: real, x: real)
    ensures k * -x == -(k * x)
  {
  }

  lemma ScaledTo(k: real, x: real, y: real, p: real, q: real)
    requires 0.0 <= k <= 1.0 && -y <= x <= y && p == k * x && q == k * y
    ensures -q <= p <= q <= y
  {
    Scaled(k, x, y);
  }

  lemma CatchBounds(c: Config, k: real, x: real, y: real)
    requires 0.0 <= k <= 1.0 && k == 1.0 - c.rate && -y <= x <= y
    ensures -Catch(c)(y) <= Catch(c)(x) <= Catch(c)(y) <= y
  {
    CatchIs(c, k, x);
    CatchIs(c, k, y);
    ScaledTo(k, x, y, Catch(c)(x), Catch(c)(y));
  }

  lemma CatchIs(c: Config, k: real, x: real)
    requires k == 1.0 - c.rate
    ensures Catch(c)(x) == k * x
  {
  }

  lemma CatchOdd(c: Config, x: real)
    ensures Catch(c)(-x) == -Catch(c)(x)
  {
    Odd(1.0 - c.rate, x);
  }

  lemma RateCatchesUp(c: Config)
    requires 0.0 <= c.rate <= 1.0
    ensures CatchesUp(Catch(c))
  {
    forall x: real, y: real | -y <= x <= y ensures -Catch(c)(y) <= Catch(c)(x) <= Catch(c)(y) <= y {
      CatchBounds(c, 1.0 - c.rate, x, y);
    }
    forall x: real ensures Catch(c)(-x) == -Catch(c)(x) {
      CatchOdd(c, x);
    }
  }

  /** A cycle, as balance, gap and nudge count see it. */
  predicate Follows(c: Config, catch_: real -> real, s: State, t: State, move: int) {
    && t.balance == s.balance + move
    && (var since, gap := (s.sinceNudge + 1) % U32, Gap(s) + move as real;
        if since >= c.nudgeInterval then Gap(t) == catch_(gap) && t.sinceNudge == 0
        else Gap(t) == gap && t.sinceNudge == since)
    && (t.balance >= 0 && s.learned >= 0.0 ==> t.learned >= 0.0)
    && (t.balance <= 0 && s.learned <= 0.0 ==> t.learned <= 0.0)
  }

  lemma NudgedGap(r: real, b: real, l: real)
    ensures b - (r * b + (1.0 - r) * l) == (1.0 - r) * (b - l)
  {
    assert (1.0 - r) * (b - l) == b - l - r * b + r * l;
    assert (1.0 - r) * l == l - r * l;
  }

  lemma SameSign(k: real, b: real, l: real)
    requires 0.0 <= k <= 1.0
    ensures b >= 0.0 && l >= 0.0 ==> k * b + (1.0 - k) * l >= 0.0
    ensures b <= 0.0 && l <= 0.0 ==> k * b + (1.0 - k) * l <= 0.0
  {
    if b >= 0.0 && l >= 0.0 {
      Product(k, b);
      Product(1.0 - k, l);
    }
    if b <= 0.0 && l <= 0.0 {
      Product(k, -b);
      Product(1.0 - k, -l);
      Odd(k, b);
      Odd(1.0 - k, l);
    }
  }

  function Move(c: Config, d: Direction): int { if d.Ingress? then c.credit else -c.credit }

  lemma CycleFollows(c: Config, s: State, d: Direction)
    requires 0.0 <= c.rate <= 1.0 && InI32(s.balance + Move(c, d))
    ensures Follows(c, Catch(c), s, Begin(c, s, d), Move(c, d))
  {
    NudgedGap(c.rate, (s.balance + Move(c, d)) as real, s.learned);
    SameSign(c.rate, (s.balance + Move(c, d)) as real, s.learned);
  }

  predicate Within(c: Config, catch_: real -> real, s: State, n: nat) {
    && -Farthest(c, n) <= s.balance <= Farthest(c, n)
    && s.sinceNudge == LagUnder(c, catch_, n).since
    && Deviation(s) <= LagUnder(c, catch_, n).gap
  }

  lemma StepWithin(c: Config, catch_: real -> real, s: State, t: State, move: int, n: nat)
    requires CatchesUp(catch_) && Within(c, catch_, s, n) && Follows(c, catch_, s, t, move)
    requires move == Credit(c) || move == -Credit(c)
    ensures Within(c, catch_, t, n + 1)
  {
    var l := LagUnder(c, catch_, n);
    var x, y := Gap(s) + move as real, l.gap + Credit(c) as real;
    assert -y <= x <= y;
    assert -catch_(y) <= catch_(x) <= catch_(y);
    assert LagUnder(c, catch_, n + 1) == LagNext(c, catch_, l);
  }

  lemma MoveIs(c: Config, d: Direction)
    ensures Move(c, d) == Credit(c) || Move(c, d) == -Credit(c)
  {
  }

  lemma BeginWithin(c: Config, s: State, d: Direction, n: nat)
    requires 0.0 <= c.rate <= 1.0 && Within(c, Catch(c), s, n) && Farthest(c, n + 1) <= I32_MAX
    ensures Within(c, Catch(c), Begin(c, s, d), n + 1)
  {
    MoveIs(c, d);
    RateCatchesUp(c);
    CycleFollows(c, s, d);
    StepWithin(c, Catch(c), s, Begin(c, s, d), Move(c, d), n);
  }

  /** No run of `n` cycles deviates farther than the one that always goes the same way. */
  lemma {:induction false} RunWithin(c: Config, ws: seq<Cycle>)
    requires 0.0 <= c.rate <= 1.0 && Farthest(c, |ws|) <= I32_MAX
    ensures Within(c, Catch(c), Run(c, NewState(), ws), |ws|)
  {
    if ws != [] {
      var most := ws[..|ws| - 1];
      FarthestGrows(c, |most|, |ws|);
      RunWithin(c, most);
      BeginWithin(c, Run(c, NewState(), most), ws[|ws| - 1].dir, |most|);
    }
  }

  lemma AfterWithin(c: Config, ws: seq<Cycle>, d: Direction, n: nat)
    requires 0.0 <= c.rate <= 1.0 && |ws| < n && Farthest(c, n) <= I32_MAX
    ensures Deviation(After(c, ws, d)) <= Lagging(c, |ws| + 1)
  {
    FarthestGrows(c, |ws|, |ws| + 1);
    FarthestGrows(c, |ws| + 1, n);
    RunWithin(c, ws);
    BeginWithin(c, Run(c, NewState(), ws), d, |ws|);
  }

  /** `n` cycles one way. */
  function Straight(d: Direction, n: nat): seq<Cycle> { seq(n, _ => Cycle(d, 0.0)) }

  /** Where a straight run is: `up` tells whether its balance grows. */
  predicate Reaches(c: Config, catch_: real -> real, s: State, n: nat, up: bool) {
    var l := LagUnder(c, catch_, n);
    && s.balance == (if up then Farthest(c, n) else -Farthest(c, n))
    && s.sinceNudge == l.since
    && Gap(s) == (if up then l.gap else -l.gap)
    && (if up then s.learned >= 0.0 else s.learned <= 0.0)
  }

  lemma StepReaches(c: Config, catch_: real -> real, s: State, t: State, move: int, n: nat, up: bool)
    requires CatchesUp(catch_) && Reaches(c, catch_, s, n, up) && Follows(c, catch_, s, t, move)
    requires move == (if up then Credit(c) else -Credit(c))
    ensures Reaches(c, catch_, t, n + 1, up)
  {
    FarthestGrows(c, 0, n);
    var y := LagUnder(c, catch_, n).gap + Credit(c) as real;
    assert catch_(-y) == -catch_(y);
    assert LagUnder(c, catch_, n + 1) == LagNext(c, catch_, LagUnder(c, catch_, n));
  }

  lemma BeginReaches(c: Config, s: State, d: Direction, n: nat, up: bool)
    requires 0.0 <= c.rate <= 1.0 && Reaches(c, Catch(c), s, n, up) && Farthest(c, n + 1) <= I32_MAX
    requires Move(c, d) == (if up then Credit(c) else -Credit(c))
    ensures Reaches(c, Catch(c), Begin(c, s, d), n + 1, up)
  {
    FarthestGrows(c, n, n + 1);
    RateCatchesUp(c);
    CycleFollows(c, s, d);
    StepReaches(c, Catch(c), s, Begin(c, s, d), Move(c, d), n, up);
  }

  /** The straight run has exactly the lag. */
  lemma {:induction false} StraightReaches(c: Config, d: Direction, n: nat, up: bool)
    requires 0.0 <= c.rate <= 1.0 && Farthest(c, n) <= I32_MAX
    requires Move(c, d) == (if up then Credit(c) else -Credit(c))
    ensures Reaches(c, Catch(c), Run(c, NewState(), Straight(d, n)), n, up)
  {
    if n > 0 {
      FarthestGrows(c, n - 1, n);
      StraightReaches(c, d, n - 1, up);
      assert Straight(d, n)[..n - 1] == Straight(d, n - 1);
      BeginReaches(c, Run(c, NewState(), Straight(d, n - 1)), d, n - 1, up);
    }
  }

  lemma AfterReaches(c: Config, d: Direction, n: nat, up: bool)
    requires 0.0 <= c.rate <= 1.0 && n > 0 && Farthest(c, n) <= I32_MAX
    requires Move(c, d) == (if up then Credit(c) else -Credit(c))
    ensures Reaches(c, Catch(c), After(c, Straight(d, n - 1), d), n, up)
    ensures Deviation(After(c, Straight(d, n - 1), d)) == Lagging(c, n)
  {
    FarthestGrows(c, n - 1, n);
    StraightReaches(c, d, n - 1, up);
    BeginReaches(c, Run(c, NewState(), Straight(d, n - 1)), d, n - 1, up);
    RateCatchesUp(c);
    LagGrows(c, Catch(c), n);
  }

  lemma {:induction false} LagGrows(c: Config, catch_: real -> real, n: nat)
    requires CatchesUp(catch_) && n > 0
    ensures 0.0 <= LagUnder(c, catch_, n).gap <= LagUnder(c, catch_, n - 1).gap + Credit(c) as real
  {
    if n > 1 {
      LagGrows(c, catch_, n - 1);
    }
    var y := LagUnder(c, catch_, n - 1).gap + Credit(c) as real;
    assert -catch_(y) <= catch_(y) <= y;
    assert LagUnder(c, catch_, n) == LagNext(c, catch_, LagUnder(c, catch_, n - 1));
  }

  /** The first cycle at which the lag reaches a threshold does not pass it by more than the credit. */
  lemma {:induction false} FirstCrossing(c: Config, n: nat, x: real) returns (k: nat)
    requires 0.0 <= c.rate <= 1.0 && n > 0 && Lagging(c, n) >= x >= 0.0
    ensures 0 < k <= n && x <= Lagging(c, k) <= x + Credit(c) as real
    ensures x > 0.0 ==> Lagging(c, k) < x + Credit(c) as real
  {
    RateCatchesUp(c);
    LagGrows(c, Catch(c), n);
    if n > 1 && Lagging(c, n - 1) >= x {
      k := FirstCrossing(c, n - 1, x);
    } else {
      k := n;
    }
  }

  /** A direction that moves the balance up. */
  function Upwards(c: Config): Direction { if c.credit >= 0 then Ingress else Egress }

  /** A real run that yields inside the band: whenever the lag lies between twice the maximum and
      the healthy width. */
  lemma LoudAt(c: Config, n: nat, k: nat)
    requires 0.0 <= c.rate <= 1.0 && 0 < k <= n && Farthest(c, k) <= I32_MAX
    requires (2 * c.maxImbalance) as real <= Lagging(c, k) <= c.healthy as real
    ensures !QuietWithin(c, n)
  {
    var d := Upwards(c);
    AfterReaches(c, d, k, true);
    assert |Straight(d, k - 1)| < n;
    assert ByChance(c, After(c, Straight(d, k - 1), d), d, 0.0);
  }

  /** The exact condition, until the balance may wrap: a band that ends before twice the maximum,
      or lag that never gets there. The band is not cut off within one credit above it. */
  lemma QuietIff(c: Config, n: nat)
    requires 0.0 <= c.rate <= 1.0 && IsCurve(c.strategy) && Farthest(c, n) <= I32_MAX
    requires c.healthy < 2 * c.maxImbalance || c.healthy >= 2 * c.maxImbalance + Credit(c)
    ensures QuietWithin(c, n) <==>
            c.healthy < 2 * c.maxImbalance || forall k :: 1 <= k <= n ==> Lagging(c, k) < (2 * c.maxImbalance) as real
  {
    if c.healthy < 2 * c.maxImbalance {
      NarrowIsQuiet(c, n);
    } else if forall k :: 1 <= k <= n ==> Lagging(c, k) < (2 * c.maxImbalance) as real {
      forall ws: seq<Cycle>, d: Direction, draw: real
        | |ws| < n && 0.0 <= draw < 1.0 && Deviation(After(c, ws, d)) <= c.healthy as real
        ensures !ByChance(c, After(c, ws, d), d, draw)
      {
        AfterWithin(c, ws, d, n);
        assert Lagging(c, |ws| + 1) < (2 * c.maxImbalance) as real;
        Quiet(c, After(c, ws, d), d);
      }
    } else {
      var k :| 1 <= k <= n && !(Lagging(c, k) < (2 * c.maxImbalance) as real);
      var j := FirstCrossing(c, k, (2 * c.maxImbalance) as real);
      FarthestGrows(c, j, n);
      LoudAt(c, n, j);
    }
  }

  /** Work that is never boosted, whatever the balance. */
  function Preferred(c: Config): Direction { if c.priority.EgressFirst? then Egress else Ingress }

  lemma Fraction(a: real, b: real)
    requires 0.0 <= a < b
    ensures 0.0 <= a / b < 1.0
  {
  }

  /** With the maximum inside the healthy band the strategy does not see it. */
  lemma WeakInside(c: Config, s: State)
    requires ConfigOk(c) && IsCurve(c.strategy) && c.maxImbalance < c.healthy && Deviation(s) < (2 * c.maxImbalance) as real
    ensures Probability(c, s) < 1.0
  {
    assert Span(c) == (U32 + c.maxImbalance - c.healthy) as real;
    assert Severity(c, s) < Span(c);
    Fraction(Severity(c, s), Span(c));
  }

  /** With a boost below one, work of the other direction is held back less. */
  lemma WeakBoost(c: Config, s: State, d: Direction)
    requires ConfigOk(c) && IsCurve(c.strategy) && c.maxImbalance > c.healthy && c.boost < 1.0 && Boosted(c, s, d)
    requires c.maxImbalance as real <= Deviation(s) < (2 * c.maxImbalance) as real
    ensures Chance(c, s, d) < 1.0
  {
    SureProbability(c, s);
  }

  lemma SureProbability(c: Config, s: State)
    requires ConfigOk(c) && IsCurve(c.strategy) && c.maxImbalance > c.healthy && Deviation(s) >= c.maxImbalance as real
    ensures Probability(c, s) == 1.0
  {
    assert Span(c) == (c.maxImbalance - c.healthy) as real;
    assert Severity(c, s) >= Span(c);
  }

  lemma BoostedUp(s: State)
    requires s.learned >= 0.0 && Gap(s) > 0.0
    ensures s.balance > Truncated(s.learned)
  {
    assert s.learned.Floor as real <= s.learned;
    assert s.learned.Floor < s.balance;
  }

  lemma BoostedDown(s: State)
    requires s.learned <= 0.0 && Gap(s) < 0.0 && InI32(s.balance)
    ensures s.balance < Truncated(s.learned)
  {
    var n := (-s.learned).Floor;
    assert n as real <= -s.learned;
    assert -n > s.balance;
  }

  /** The direction whose straight run shows that the maximum is not decisive. */
  function Witness(c: Config): Direction {
    if c.maxImbalance < c.healthy then Preferred(c)
    else if c.priority.IngressFirst? then Egress else Ingress
  }

  lemma WitnessChance(c: Config, s: State, n: nat)
    requires ConfigOk(c) && IsCurve(c.strategy) && c.credit >= 0 && 0 < c.maxImbalance != c.healthy && !Decisive(c)
    requires Reaches(c, Catch(c), s, n, Witness(c).Ingress?) && Deviation(s) == Lagging(c, n)
    requires c.maxImbalance as real <= Deviation(s) < (2 * c.maxImbalance) as real && InI32(s.balance)
    ensures Chance(c, s, Witness(c)) < 1.0
  {
    if c.maxImbalance < c.healthy {
      WeakInside(c, s);
    } else {
      if c.priority.IngressFirst? {
        BoostedDown(s);
      } else {
        BoostedUp(s);
      }
      WeakBoost(c, s, Witness(c));
    }
  }

  /** The exact condition, until the balance may wrap, for a credit up to the maximum and not the
      same maximum and width: a decisive configuration, or a lag that never reaches the maximum. */
  lemma CertainIff(c: Config, n: nat)
    requires ConfigOk(c) && 0.0 <= c.rate <= 1.0 && IsCurve(c.strategy) && Farthest(c, n) <= I32_MAX
    requires 0 <= c.credit <= c.maxImbalance && c.maxImbalance != c.healthy
    ensures CertainWithin(c, n) <==>
            c.maxImbalance == 0 || Decisive(c) || forall k :: 1 <= k <= n ==> Lagging(c, k) < c.maxImbalance as real
  {
    if c.maxImbalance == 0 || Decisive(c) {
      DecisiveIsCertain(c, n);
    } else if forall k :: 1 <= k <= n ==> Lagging(c, k) < c.maxImbalance as real {
      forall ws: seq<Cycle>, d: Direction | |ws| < n ensures Deviation(After(c, ws, d)) < c.maxImbalance as real {
        AfterWithin(c, ws, d, n);
        assert Lagging(c, |ws| + 1) < c.maxImbalance as real;
      }
    } else {
      var k :| 1 <= k <= n && !(Lagging(c, k) < c.maxImbalance as real);
      var j := FirstCrossing(c, k, c.maxImbalance as real);
      FarthestGrows(c, j, n);
      UncertainAt(c, n, j);
    }
  }

  lemma UncertainAt(c: Config, n: nat, k: nat)
    requires ConfigOk(c) && 0.0 <= c.rate <= 1.0 && IsCurve(c.strategy) && 0 < k <= n && Farthest(c, k) <= I32_MAX
    requires c.credit >= 0 && 0 < c.maxImbalance != c.healthy && !Decisive(c)
    requires c.maxImbalance as real <= Lagging(c, k) < (2 * c.maxImbalance) as real
    ensures !CertainWithin(c, n)
  {
    var d := Witness(c);
    AfterReaches(c, d, k, d.Ingress?);
    var ws := Straight(d, k - 1);
    var s := After(c, ws, d);
    FarthestGrows(c, 0, k);
    WitnessChance(c, s, k);
    var draw := if Chance(c, s, d) < 0.0 then 0.0 else Chance(c, s, d);
    assert |ws| < n && !ByChance(c, After(c, ws, d), d, draw);
  }

  /** With the maximum at the end of the healthy band it is not certain when the lag meets it exactly. */
  lemma EdgeAt(c: Config, n: nat, k: nat)
    requires 0.0 <= c.rate <= 1.0 && IsCurve(c.strategy) && 0 < k <= n && Farthest(c, k) <= I32_MAX
    requires 0 < c.maxImbalance == c.healthy && Lagging(c, k) == c.maxImbalance as real
    ensures !CertainWithin(c, n)
  {
    var d := Upwards(c);
    AfterReaches(c, d, k, true);
    var ws := Straight(d, k - 1);
    InBandChance(c, After(c, ws, d), d);
    assert |ws| < n && !ByChance(c, After(c, ws, d), d, 0.0);
  }

  /** Until the average first moves, the lag is the balance itself. */
  lemma {:induction false} LagIsBalance(c: Config, n: nat)
    requires n < c.nudgeInterval && n < U32
    ensures LagUnder(c, Catch(c), n) == Lag(Farthest(c, n) as real, n)
  {
    if n > 0 {
      LagIsBalance(c, n - 1);
    }
  }

  /** The throttle as the source keeps it. */
  class AdaptiveThrottle {
    const cfg: Config
    var balance: int
    var learned: real
    var ingress: nat
    var egress: nat
    var sinceNudge: nat

    ghost function Value(): State
      reads this
    {
      State(balance, learned, ingress, egress, sinceNudge)
    }

    constructor (c: Config)
      ensures Value() == NewState() && cfg == Clamped(c)
    {
      cfg := Clamped(c);
      balance, learned, ingress, egress, sinceNudge := 0, 0.0, 0, 0, 0;
    }

    method BeginWork(d: Direction)
      modifies this
      ensures Value() == Begin(cfg, old(Value()), d)
    {
      balance := Wrap32(if d.Ingress? then balance + cfg.credit else balance - cfg.credit);
      sinceNudge := (sinceNudge + 1) % U32;
      if sinceNudge >= cfg.nudgeInterval {
        learned := cfg.rate * (balance as real) + (1.0 - cfg.rate) * learned;
        sinceNudge := 0;
      }
      if d.Ingress? {
        ingress := (ingress + 1) % U32;
        egress := 0;
      } else {
        egress := (egress + 1) % U32;
        ingress := 0;
      }
    }

    method ShouldThrottle(d: Direction, draw: real) returns (yield_: bool)
      modifies this
      ensures Value() == Settled(cfg, old(Value()), d, draw)
      ensures yield_ == Yields(cfg, old(Value()), d, draw)
    {
      var s := State(balance, learned, ingress, egress, sinceNudge);
      yield_ := true;
      var streak := if d.Ingress? then ingress else egress;
      if streak < cfg.yieldAfter {
        var p := Probability(cfg, s);
        if Boosted(cfg, s, d) {
          p := p * cfg.boost;
        }
        if Deviation(s) >= (2 * cfg.maxImbalance) as real {
          p := 1.0;
        }
        assert p == Chance(cfg, s, d);
        yield_ := draw < p;
      }
      if yield_ {
        ingress, egress := 0, 0;
      }
    }
  }
}
