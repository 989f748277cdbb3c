/** The closed-form PID tuning rules for a first-order-plus-dead-time
    process of static gain `K`, time constant `tau` and dead time `theta`,
    as collected in O'Dwyer's Handbook of PI and PID Controller Tuning Rules.

    Arithmetic is exact, over `real`. Each rule's `requires` says exactly
    when the branch it takes divides by no zero.
    The arguments `type_of_plant` and `type_of_control`, which no rule
    reads, are left out. */
module Turu {
  import opened Controllers
  import opened Interpolation

  // ---------------------------------------------------------------------
  // Callender et al. (1935/6)
  // ---------------------------------------------------------------------

  /** `criteria` 1 gives decay ratio 0.015; `criteria` 2 gives decay ratio
      0.043 and distinguishes PI from PID. */
  function Callender(K: real, tau: real, theta: real, c: Controller, criteria: int): (o: Outcome)
    requires criteria == 1 || (criteria == 2 && (c == PI || c == PID)) ==> K != 0.0 && theta != 0.0
    ensures o == EmptyList <==> criteria != 1 && criteria != 2
    ensures o == NoResult <==> criteria == 2 && c != PI && c != PID
    ensures criteria == 1 ==>
      Yields(o, 2) && Kp(o) * K * theta == 0.568 && Ki(o) * (3.64 * theta) == Kp(o)
    ensures criteria == 2 && c == PI ==>
      Yields(o, 2) && Kp(o) * K * theta == 0.690 && Ki(o) * (2.45 * theta) == Kp(o)
    ensures criteria == 2 && c == PID ==>
      && Yields(o, 3) && Kp(o) * K * theta == 1.066 && Ki(o) * (1.418 * theta) == Kp(o)
      && Kd(o) == 0.47 * theta * Kp(o)
  {
    if criteria != 1 && criteria != 2 then
      EmptyList
    else if criteria == 1 then
      var kp := 0.568 / (K * theta);
      Gains([kp, kp / (3.64 * theta)])
    else if c == PI then
      var kp := 0.690 / (K * theta);
      Gains([kp, kp / (2.45 * theta)])
    else if c == PID then
      var kp := 1.066 / (K * theta);
      Gains([kp, kp / (1.418 * theta), kp * (0.47 * theta)])
    else
      NoResult
  }

  // ---------------------------------------------------------------------
  // Ziegler and Nichols (1942)
  // ---------------------------------------------------------------------

  function ZieglerNichols(K: real, tau: real, theta: real, c: Controller): (o: Outcome)
    requires c != PD ==> K != 0.0 && theta != 0.0
    ensures o == NoResult <==> c == PD
    ensures c != PD ==> Yields(o, Arity(c))
    ensures c == P ==> Kp(o) * K * theta == tau
    ensures c == PI ==> Kp(o) * K * theta == 0.9 * tau && Ki(o) * (3.3 * theta) == Kp(o)
    ensures c == PID ==>
      && Kp(o) * K * theta == 1.2 * tau && Ki(o) * (2.0 * theta) == Kp(o)
      && Kd(o) == 0.5 * theta * Kp(o)
  {
    match c
    case P =>
      Gains([(1.0 / K) * (tau / theta)])
    case PI =>
      var kp := 0.9 * (1.0 / K) * (tau / theta);
      Gains([kp, kp / (3.3 * theta)])
    case PID =>
      var kp := 1.2 * (1.0 / K) * (tau / theta);
      Gains([kp, kp / (2.0 * theta), kp * 0.5 * theta])
    case PD =>
      NoResult
  }

  // ---------------------------------------------------------------------
  // Hazebroek and Van der Waerden (1950)
  // ---------------------------------------------------------------------

  /** The `theta/tau` breakpoints of the two correction curves. */
  function ThetaOverTauTable(): (t: seq<real>)
    ensures |t| == 26 && t[0] == 0.2 && t[25] == 3.4
    ensures Increasing(t)
  {
    [0.2, 0.3, 0.4, 0.5, 0.6, 0.7, 0.8, 0.9, 1.0, 1.1, 1.2, 1.3, 1.4,
     1.5, 1.6, 1.7, 1.8, 1.9, 2.0, 2.2, 2.4, 2.6, 2.8, 3.0, 3.2, 3.4]
  }

  /** The first correction factor, `x1`, at each breakpoint. */
  function X1Table(): (t: seq<real>)
    ensures |t| == 26 && t[0] == 0.68 && t[25] == 1.81
    ensures Increasing(t)
  {
    [0.68, 0.70, 0.72, 0.74, 0.76, 0.79, 0.81, 0.84, 0.87, 0.90, 0.93, 0.96, 0.99,
     1.02, 1.06, 1.09, 1.13, 1.17, 1.20, 1.28, 1.36, 1.45, 1.53, 1.62, 1.71, 1.81]
  }

  /** The second correction factor, `x2`, at each breakpoint. */
  function X2Table(): (t: seq<real>)
    ensures |t| == 26 && t[0] == 7.14 && t[25] == 0.80
    ensures Decreasing(t)
  {
    [7.14, 4.76, 3.70, 3.03, 2.50, 2.17, 1.92, 1.75, 1.61, 1.49, 1.41, 1.32, 1.25,
     1.19, 1.14, 1.10, 1.06, 1.03, 1.00, 0.95, 0.91, 0.88, 0.85, 0.83, 0.81, 0.80]
  }

  /** `x1`, interpolated at `theta/tau`; bounded by the table's extremes. */
  function CorrectionX1(ratio: real): (x1: real)
    ensures 0.68 <= x1 <= 1.81
  {
    IncreasingBetweenEnds(X1Table());
    InterpWithin(ratio, ThetaOverTauTable(), X1Table(), 0.68, 1.81);
    Interp(ratio, ThetaOverTauTable(), X1Table())
  }

  /** `x2`, interpolated at `theta/tau`; never below 0.80, so never zero. */
  function CorrectionX2(ratio: real): (x2: real)
    ensures 0.80 <= x2 <= 7.14
  {
    DecreasingBetweenEnds(X2Table());
    InterpWithin(ratio, ThetaOverTauTable(), X2Table(), 0.80, 7.14);
    Interp(ratio, ThetaOverTauTable(), X2Table())
  }

  /** No gains below `theta/tau = 0.2`; the interpolated correction factors
      up to 3.4; a closed form above. The controller type is not read. */
  function HazebroekVanDerWaerden(K: real, tau: real, theta: real, c: Controller): (o: Outcome)
    requires tau != 0.0
    requires theta / tau >= 0.2 ==> K != 0.0
    ensures o == EmptyList <==> theta / tau < 0.2
    ensures theta / tau >= 0.2 ==> Yields(o, 2)
    ensures 0.2 <= theta / tau <= 3.4 ==>
      o == TabulatedGains(K, tau, theta, CorrectionX1(theta / tau), CorrectionX2(theta / tau))
    ensures theta / tau > 3.4 ==> o == ClosedFormGains(K, tau, theta)
  {
    var ratio := theta / tau;
    if ratio < 0.2 then
      EmptyList
    else if ratio <= 3.4 then
      TabulatedGains(K, tau, theta, CorrectionX1(ratio), CorrectionX2(ratio))
    else
      ClosedFormGains(K, tau, theta)
  }

  /** The gains of the tabulated range: `Kp*K*theta/tau` is the first
      correction factor and the integral time `Kp/Ki` is the second one
      times `theta`. */
  function TabulatedGains(K: real, tau: real, theta: real, x1: real, x2: real): (o: Outcome)
    requires tau != 0.0 && K != 0.0 && theta / tau >= 0.2 && x2 >= 0.80
    ensures Yields(o, 2)
    ensures Kp(o) * (K * (theta / tau)) == x1 && Ki(o) * (x2 * theta) == Kp(o)
  {
    var ratio := theta / tau;
    var kp := x1 / (K * ratio);
    Gains([kp, kp / (x2 * theta)])
  }

  /** The gains above the table: `Kp*K*theta/tau = 0.5*theta/tau + 1`, and
      `Kp/Ki = theta/(1.6*theta - 1.2*tau)`. */
  function ClosedFormGains(K: real, tau: real, theta: real): (o: Outcome)
    requires tau != 0.0 && K != 0.0 && theta / tau > 3.4
    ensures Yields(o, 2)
    ensures Kp(o) * (K * (theta / tau)) == 0.5 * (theta / tau) + 1.0
    ensures Ki(o) * theta == Kp(o) * (1.6 * theta - 1.2 * tau)
  {
    var ratio := theta / tau;
    ClosedFormDenominator(tau, theta);
    var kp := 1.0 / (K * ratio) * (0.5 * ratio + 1.0);
    Gains([kp, kp / (theta / (1.6 * theta - 1.2 * tau))])
  }

  /** Above `theta/tau = 3.4` the closed form's inner divisor
      `1.6*theta - 1.2*tau` has the sign of `tau`, so it is never zero. */
  lemma ClosedFormDenominator(tau: real, theta: real)
    requires tau != 0.0
    requires theta / tau > 3.4
    ensures (1.6 * theta - 1.2 * tau) * tau > 0.0
    ensures theta != 0.0 && 1.6 * theta - 1.2 * tau != 0.0
  {
    var ratio := theta / tau;
    assert theta == ratio * tau;
    assert 1.6 * theta - 1.2 * tau == tau * (1.6 * ratio - 1.2);
    assert tau * tau > 0.0;
    assert 1.6 * ratio - 1.2 > 0.0;
    assert (1.6 * theta - 1.2 * tau) * tau == (tau * tau) * (1.6 * ratio - 1.2);
    PositiveProduct(tau * tau, 1.6 * ratio - 1.2);
  }

  // ---------------------------------------------------------------------
  // Oppelt (1951)
  // ---------------------------------------------------------------------

  /** Both branches share Kp; the integral time is `3.32*theta` below
      `theta/tau = 1` and `1.66*theta` above; exactly 1 matches neither. */
  function Oppelt(K: real, tau: real, theta: real, c: Controller): (o: Outcome)
    requires tau != 0.0
    requires theta / tau != 1.0 ==> K != 0.0 && theta != 0.0
    ensures o == NoResult <==> theta / tau == 1.0
    ensures theta / tau != 1.0 ==> Yields(o, 2) && Kp(o) * K == 0.77 * tau / theta - 1.0
    ensures theta / tau < 1.0 ==> Ki(o) * (3.32 * theta) == Kp(o)
    ensures theta / tau > 1.0 ==> Ki(o) * (1.66 * theta) == Kp(o)
  {
    var ratio := theta / tau;
    if ratio < 1.0 then
      OverGainRatio(0.77, K, tau, theta);
      var kp := (1.0 / K) * (0.77 / ratio - 1.0);
      Gains([kp, kp / (3.32 * theta)])
    else if ratio > 1.0 then
      OverGainRatio(0.77, K, tau, theta);
      var kp := (1.0 / K) * (0.77 / ratio - 1.0);
      Gains([kp, kp / (1.66 * theta)])
    else
      NoResult
  }

  // ---------------------------------------------------------------------
  // Moros (1999), after Oppelt and after Rosenberg
  // ---------------------------------------------------------------------

  function MorosOppelt(K: real, tau: real, theta: real, c: Controller): (o: Outcome)
    requires tau != 0.0
    requires c == PI || c == PID ==> K != 0.0 && theta != 0.0
    ensures o == NoResult <==> c == P || c == PD
    ensures c == PI || c == PID ==> Yields(o, Arity(c))
    ensures c == PI ==> Kp(o) * K * theta == 0.8 * tau && Ki(o) * (3.0 * theta) == Kp(o)
    ensures c == PID ==>
      && Kp(o) * K * theta == 1.2 * tau && Ki(o) * (2.0 * theta) == Kp(o)
      && Kd(o) == 0.42 * theta * Kp(o)
  {
    var ratio := theta / tau;
    if c == PI then
      var kp := 0.8 / (K * ratio);
      Gains([kp, kp / (3.0 * theta)])
    else if c == PID then
      var kp := 1.2 / (K * ratio);
      Gains([kp, kp / (2.0 * theta), kp * (0.42 * theta)])
    else
      NoResult
  }

  function MorosRosenberg(K: real, tau: real, theta: real, c: Controller): (o: Outcome)
    requires tau != 0.0
    requires c == PI || c == PID ==> K != 0.0 && theta != 0.0
    ensures o == NoResult <==> c == P || c == PD
    ensures c == PI || c == PID ==> Yields(o, Arity(c))
    ensures c == PI ==> Kp(o) * K * theta == 0.91 * tau && Ki(o) * (3.3 * theta) == Kp(o)
    ensures c == PID ==>
      && Kp(o) * K * theta == 1.2 * tau && Ki(o) * (2.0 * theta) == Kp(o)
      && Kd(o) == 0.44 * theta * Kp(o)
  {
    var ratio := theta / tau;
    if c == PI then
      var kp := 0.91 / (K * ratio);
      Gains([kp, kp / (3.3 * theta)])
    else if c == PID then
      var kp := 1.2 / (K * ratio);
      Gains([kp, kp / (2.0 * theta), kp * (0.44 * theta)])
    else
      NoResult
  }

  // ---------------------------------------------------------------------
  // Cohen and Coon (1953)
  // ---------------------------------------------------------------------

  /** The branch the controller type selects divides by nothing that is zero. */
  predicate CohenCoonDefined(K: real, tau: real, theta: real, c: Controller) {
    match c
    case P => K != 0.0 && theta != 0.0
    case PI =>
      && K != 0.0 && theta != 0.0 && tau != 0.0
      && 9.0 + 20.0 * (theta / tau) != 0.0 && 30.0 + 3.0 * (theta / tau) != 0.0
    case PID =>
      && K != 0.0 && theta != 0.0 && tau != 0.0
      && 13.0 + 8.0 * (theta / tau) != 0.0 && 32.0 + 6.0 * (theta / tau) != 0.0
      && 11.0 + 2.0 * (theta / tau) != 0.0
    case PD => true
  }

  /** The integral time `Kp/Ki` is `theta` times a ratio of linear terms in
      `theta/tau` divided again by `theta`, so `theta` cancels out of it. */
  function CohenCoon(K: real, tau: real, theta: real, c: Controller): (o: Outcome)
    requires CohenCoonDefined(K, tau, theta, c)
    ensures o == NoResult <==> c == PD
    ensures c != PD ==> Yields(o, Arity(c))
    ensures c == P ==> Kp(o) * K == tau / theta + 1.0 / 3.0
  {
    match c
    case P =>
      Gains([(1.0 / K) * (tau / theta + 1.0 / 3.0)])
    case PI =>
      var kp := (1.0 / K) * (0.9 * tau / theta + 1.0 / 12.0);
      Gains([kp, kp / ((theta * (30.0 + 3.0 * (theta / tau))) / (theta * (9.0 + 20.0 * (theta / tau))))])
    case PID =>
      var kp := (1.0 / K) * ((4.0 / 3.0) * (tau / theta) + 1.0 / 4.0);
      Gains([kp, kp / ((theta * (32.0 + 6.0 * (theta / tau))) / (theta * (13.0 + 8.0 * (theta / tau)))),
             kp * (4.0 / (theta * (11.0 + 2.0 * (theta / tau))))])
    case PD =>
      NoResult
  }

  /** PI: `Kp*K = 0.9*tau/theta + 1/12`, and `Kp/Ki = (30 + 3r)/(9 + 20r)`
      with `r = theta/tau`: the dead time cancels out of the integral time. */
  lemma CohenCoonPI(K: real, tau: real, theta: real)
    requires CohenCoonDefined(K, tau, theta, PI)
    ensures var o := CohenCoon(K, tau, theta, PI);
      && Kp(o) * K == 0.9 * tau / theta + 1.0 / 12.0
      && Ki(o) * (30.0 + 3.0 * (theta / tau)) == Kp(o) * (9.0 + 20.0 * (theta / tau))
  {
  }

  /** PID: `Kp*K = (4/3)*tau/theta + 1/4`, `Kp/Ki = (32 + 6r)/(13 + 8r)` and
      `Kd/Kp = 4/(theta*(11 + 2r))` with `r = theta/tau`. */
  lemma CohenCoonPID(K: real, tau: real, theta: real)
    requires CohenCoonDefined(K, tau, theta, PID)
    ensures var o := CohenCoon(K, tau, theta, PID);
      && Kp(o) * K == (4.0 / 3.0) * (tau / theta) + 1.0 / 4.0
      && Ki(o) * (32.0 + 6.0 * (theta / tau)) == Kp(o) * (13.0 + 8.0 * (theta / tau))
      && Kd(o) * (theta * (11.0 + 2.0 * (theta / tau))) == 4.0 * Kp(o)
  {
  }

  // ---------------------------------------------------------------------
  // Fertik and Sharpe (1979)
  // ---------------------------------------------------------------------

  /** Two gains whatever the controller type; no dead-time term. */
  function FertikSharpe(K: real, tau: real, theta: real, c: Controller): (o: Outcome)
    requires K != 0.0 && tau != 0.0
    ensures Yields(o, 2)
    ensures Kp(o) * K == 0.56 && Ki(o) * (0.65 * tau) == Kp(o)
  {
    var kp := 0.56 / K;
    Gains([kp, kp / (0.65 * tau)])
  }

  // ---------------------------------------------------------------------
  // Parr (1989)
  // ---------------------------------------------------------------------

  function Parr(K: real, tau: real, theta: real, c: Controller): (o: Outcome)
    requires tau != 0.0
    requires c == PI || c == PID ==> K != 0.0 && theta != 0.0
    ensures o == NoResult <==> c == P || c == PD
    ensures c == PI || c == PID ==> Yields(o, Arity(c))
    ensures c == PI ==> Kp(o) * K * theta == 0.91 * tau && Ki(o) * (3.3 * theta) == Kp(o)
    ensures c == PID ==>
      && Kp(o) * K * theta == 1.25 * tau && Ki(o) * (2.5 * theta) == Kp(o)
      && Kd(o) == 0.4 * theta * Kp(o)
  {
    var ratio := theta / tau;
    if c == PI then
      var kp := 0.91 / (K * ratio);
      Gains([kp, kp / (3.3 * theta)])
    else if c == PID then
      var kp := 1.25 / (K * ratio);
      Gains([kp, kp / (2.5 * theta), kp * (0.4 * theta)])
    else
      NoResult
  }

  // ---------------------------------------------------------------------
  // Sakai et al. (1989)
  // ---------------------------------------------------------------------

  /** Two gains whatever the controller type. */
  function Sakai(K: real, tau: real, theta: real, c: Controller): (o: Outcome)
    requires tau != 0.0 && K != 0.0 && theta != 0.0
    ensures Yields(o, 2)
    ensures Kp(o) * K * theta == 1.2408 * tau && Ki(o) * (0.5 * theta) == Kp(o)
  {
    var ratio := theta / tau;
    var kp := 1.2408 / (K * ratio);
    Gains([kp, kp / (0.5 * theta)])
  }

  // ---------------------------------------------------------------------
  // Borresen and Grindal (1990)
  // ---------------------------------------------------------------------

  /** The PID branch repeats the PI gains and adds a derivative gain. */
  function BorresenGrindal(K: real, tau: real, theta: real, c: Controller): (o: Outcome)
    requires tau != 0.0
    requires c == PI || c == PID ==> K != 0.0 && theta != 0.0
    ensures o == NoResult <==> c == P || c == PD
    ensures c == PI || c == PID ==> Yields(o, Arity(c))
    ensures c == PI || c == PID ==> Kp(o) * K * theta == tau && Ki(o) * (3.0 * theta) == Kp(o)
    ensures c == PID ==> Kd(o) == 0.5 * theta * Kp(o)
  {
    var ratio := theta / tau;
    if c == PI then
      var kp := 1.0 / (K * ratio);
      Gains([kp, kp / (3.0 * theta)])
    else if c == PID then
      var kp := 1.0 / (K * ratio);
      Gains([kp, kp / (3.0 * theta), kp * (0.5 * theta)])
    else
      NoResult
  }

  // ---------------------------------------------------------------------
  // Klein et al. (1992)
  // ---------------------------------------------------------------------

  /** Two gains whatever the controller type; defined at zero dead time. */
  function Klein(K: real, tau: real, theta: real, c: Controller): (o: Outcome)
    requires tau != 0.0 && K != 0.0 && theta / tau + 0.1 != 0.0
    ensures Yields(o, 2)
    ensures Kp(o) * K * (theta / tau + 0.1) == 0.28 && Ki(o) * (0.53 * tau) == Kp(o)
  {
    var ratio := theta / tau;
    var kp := 0.28 / (K * (ratio + 0.1));
    Gains([kp, kp / (0.53 * tau)])
  }

  // ---------------------------------------------------------------------
  // McMillan (1994)
  // ---------------------------------------------------------------------

  /** Two gains whatever the controller type. `theta/tau` is computed (so
      `tau` must be nonzero) and then not used; `K` multiplies, it does not
      divide, so `K = 0` is accepted. */
  function McMillan(K: real, tau: real, theta: real, c: Controller): (o: Outcome)
    requires tau != 0.0 && theta != 0.0
    ensures Yields(o, 2)
    ensures 3.0 * Kp(o) == K && Ki(o) * theta == Kp(o)
  {
    var ratio := theta / tau;
    var kp := K / 3.0;
    Gains([kp, kp / theta])
  }

  // ---------------------------------------------------------------------
  // St. Clair (1997)
  // ---------------------------------------------------------------------

  /** Two gains whatever the controller type; the second entry is the time
      constant `tau` itself rather than an integral gain. */
  function StClair(K: real, tau: real, theta: real, c: Controller): (o: Outcome)
    requires tau != 0.0 && K != 0.0 && theta != 0.0
    ensures Yields(o, 2)
    ensures Kp(o) * K * theta == 0.333 * tau && Ki(o) == tau
  {
    var ratio := theta / tau;
    Gains([0.333 / (K * ratio), tau])
  }

  // ---------------------------------------------------------------------
  // Shinskey (2000)
  // ---------------------------------------------------------------------

  /** Two gains whatever the controller type. */
  function Shinskey(K: real, tau: real, theta: real, c: Controller): (o: Outcome)
    requires tau != 0.0 && K != 0.0 && theta != 0.0
    ensures Yields(o, 2)
    ensures Kp(o) * K * theta == 0.667 * tau && Ki(o) * (3.78 * theta) == Kp(o)
  {
    var ratio := theta / tau;
    var kp := 0.667 / (K * ratio);
    Gains([kp, kp / (3.78 * theta)])
  }

  // ---------------------------------------------------------------------
  // Liptak (2001)
  // ---------------------------------------------------------------------

  /** The PID branch computes a derivative gain `0.6*theta*Kp` but returns
      only `[Kp, Ki]`, as the PI branch does. */
  function Liptak(K: real, tau: real, theta: real, c: Controller): (o: Outcome)
    requires tau != 0.0
    requires c == PI || c == PID ==> K != 0.0 && theta != 0.0
    ensures o == NoResult <==> c == P || c == PD
    ensures c == PI || c == PID ==> Yields(o, 2)
    ensures c == PI ==> Kp(o) * K * theta == 0.95 * tau && Ki(o) * (4.0 * theta) == Kp(o)
    ensures c == PID ==> Kp(o) * K * theta == 0.85 * tau && Ki(o) * (1.6 * theta) == Kp(o)
  {
    var ratio := theta / tau;
    if c == PI then
      var kp := 0.95 / (K * ratio);
      Gains([kp, kp / (4.0 * theta)])
    else if c == PID then
      var kp := 0.85 / (K * ratio);
      var ki := kp / (1.6 * theta);
      var kd := kp * (0.6 * theta);
      Gains([kp, ki])
    else
      NoResult
  }

  /** Liptak with the derivative gain its PID branch computes handed back
      as the third gain: the first two gains are the ones `Liptak` returns. */
  function LiptakWithDerivative(K: real, tau: real, theta: real, c: Controller): (o: Outcome)
    requires tau != 0.0
    requires c == PI || c == PID ==> K != 0.0 && theta != 0.0
    ensures o == NoResult <==> c == P || c == PD
    ensures c == PI || c == PID ==> Yields(o, Arity(c))
    ensures c == PI ==> o == Liptak(K, tau, theta, c)
    ensures c == PID ==>
      o.values[..2] == Liptak(K, tau, theta, c).values && Kd(o) == 0.6 * theta * Kp(o)
  {
    var written := Liptak(K, tau, theta, c);
    if c == PID then Gains(written.values + [Kp(written) * (0.6 * theta)]) else written
  }

  // ---------------------------------------------------------------------
  // Chidambaram (2002)
  // ---------------------------------------------------------------------

  /** The PID branch computes a derivative gain `0.38*theta*Kp` but returns
      only `[Kp, Ki]`, as the PI branch does. */
  function Chidambaram(K: real, tau: real, theta: real, c: Controller): (o: Outcome)
    requires tau != 0.0
    requires c == PI || c == PID ==> K != 0.0 && theta != 0.0
    ensures o == NoResult <==> c == P || c == PD
    ensures c == PI || c == PID ==> Yields(o, 2)
    ensures c == PI ==>
      Kp(o) * K * theta == 0.4 * theta + 0.665 * tau && Ki(o) * (3.4 * theta) == Kp(o)
    ensures c == PID ==>
      Kp(o) * K * theta == 0.45 * theta + 1.8 * tau && Ki(o) * (2.4 * theta) == Kp(o)
  {
    var ratio := theta / tau;
    if c == PI then
      var kp := (1.0 / K) * (0.4 + 0.665 / ratio);
      Gains([kp, kp / (3.4 * theta)])
    else if c == PID then
      var kp := (1.0 / K) * (0.45 + 1.8 / ratio);
      var ki := kp / (2.4 * theta);
      var kd := kp * (0.38 * theta);
      Gains([kp, ki])
    else
      NoResult
  }

  /** Chidambaram with the derivative gain its PID branch computes handed
      back as the third gain: the first two gains are the ones `Chidambaram`
      returns. */
  function ChidambaramWithDerivative(K: real, tau: real, theta: real, c: Controller): (o: Outcome)
    requires tau != 0.0
    requires c == PI || c == PID ==> K != 0.0 && theta != 0.0
    ensures o == NoResult <==> c == P || c == PD
    ensures c == PI || c == PID ==> Yields(o, Arity(c))
    ensures c == PI ==> o == Chidambaram(K, tau, theta, c)
    ensures c == PID ==>
      o.values[..2] == Chidambaram(K, tau, theta, c).values && Kd(o) == 0.38 * theta * Kp(o)
  {
    var written := Chidambaram(K, tau, theta, c);
    if c == PID then Gains(written.values + [Kp(written) * (0.38 * theta)]) else written
  }

  // ---------------------------------------------------------------------
  // Faanes and Skogestad (2004)
  // ---------------------------------------------------------------------

  /** Two gains whatever the controller type. */
  function FaanesSkogestad(K: real, tau: real, theta: real, c: Controller): (o: Outcome)
    requires tau != 0.0 && K != 0.0 && theta != 0.0
    ensures Yields(o, 2)
    ensures Kp(o) * K * theta == 0.71 * tau && Ki(o) * (3.3 * theta) == Kp(o)
  {
    var ratio := theta / tau;
    var kp := 0.71 / (K * ratio);
    Gains([kp, kp / (3.3 * theta)])
  }

  // ---------------------------------------------------------------------
  // PMA (2006)
  // ---------------------------------------------------------------------

  /** Two gains whatever the controller type. */
  function Pma(K: real, tau: real, theta: real, c: Controller): (o: Outcome)
    requires tau != 0.0 && K != 0.0 && theta != 0.0
    ensures Yields(o, 2)
    ensures Kp(o) * K * theta == 0.39 * tau && Ki(o) * (6.0 * theta) == Kp(o)
  {
    var ratio := theta / tau;
    var kp := 0.39 / (K * ratio);
    Gains([kp, kp / (6.0 * theta)])
  }

  // ---------------------------------------------------------------------
  // Exact real arithmetic used by the rules above
  // ---------------------------------------------------------------------

  /** The product of two positive numbers is positive. */
  lemma PositiveProduct(a: real, b: real)
    requires a > 0.0 && b > 0.0
    ensures a * b > 0.0
  {
  }

  /** A gain of the form `a/(K*theta/tau)`, times `K*theta`, is `a*tau`. */
  lemma OverGainRatio(a: real, K: real, tau: real, theta: real)
    requires K != 0.0 && tau != 0.0 && theta != 0.0
    ensures K * (theta / tau) != 0.0
    ensures (a / (K * (theta / tau))) * K * theta == a * tau
    ensures a / (theta / tau) == a * tau / theta
  {
  }
}
