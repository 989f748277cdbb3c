/** Properties of the tuning rules that relate several calls: the values
    the rules' own examples give, the behaviour of the interpolated
    correction factors, the sign of the gains on a physical process, and
    the relations between rules and between branches of one rule. */
module TuruProperties {
  import opened Controllers
  import opened Interpolation
  import opened Turu

  // ---------------------------------------------------------------------
  // The documented examples, as exact rationals
  // ---------------------------------------------------------------------

  /** `callender(K=1, tau=10, theta=3)` gives `[0.18933..., 0.017338...]`. */
  lemma CallenderExample()
    ensures var o := Callender(1.0, 10.0, 3.0, PI, 1);
      Yields(o, 2) && Kp(o) == 71.0 / 375.0 && Ki(o) == 71.0 / 4095.0
  {
  }

  /** Ziegler-Nichols PID at `K=1.25, tau=4, theta=0.9`: `Kp = 4.2666...`,
      `Kp/Ki = 1.8` and `Kd/Kp = 0.45`. */
  lemma ZieglerNicholsExample()
    ensures var o := ZieglerNichols(1.25, 4.0, 0.9, PID);
      && Yields(o, 3) && Kp(o) == 64.0 / 15.0
      && Kp(o) / Ki(o) == 1.8 && Kd(o) / Kp(o) == 0.45
  {
  }

  /** `hazebroek_vanderwaerden(K=1, tau=10, theta=3)`: `theta/tau = 0.3` is a
      breakpoint, where `x1 = 0.70` and `x2 = 4.76`, so the gains are
      `[2.333..., 0.16339...]`. */
  lemma HazebroekExample()
    ensures CorrectionX1(0.3) == 0.70 && CorrectionX2(0.3) == 4.76
    ensures var o := HazebroekVanDerWaerden(1.0, 10.0, 3.0, PI);
      Yields(o, 2) && Kp(o) == 7.0 / 3.0 && Ki(o) == 25.0 / 153.0
  {
  }

  /** `oppelt(K=1, tau=10, theta=3)` gives `[1.5666..., 0.15729...]`. */
  lemma OppeltExample()
    ensures var o := Oppelt(1.0, 10.0, 3.0, PI);
      Yields(o, 2) && Kp(o) == 47.0 / 30.0 && Ki(o) == 235.0 / 1494.0
  {
  }

  /** `moros_oppelt(K=1, tau=10, theta=3)` gives `[2.666..., 0.29629...]`. */
  lemma MorosOppeltExample()
    ensures var o := MorosOppelt(1.0, 10.0, 3.0, PI);
      Yields(o, 2) && Kp(o) == 8.0 / 3.0 && Ki(o) == 8.0 / 27.0
  {
  }

  /** `moros_rosenberg(K=1, tau=10, theta=3)` gives `[3.0333..., 0.30639...]`. */
  lemma MorosRosenbergExample()
    ensures var o := MorosRosenberg(1.0, 10.0, 3.0, PI);
      Yields(o, 2) && Kp(o) == 91.0 / 30.0 && Ki(o) == 91.0 / 297.0
  {
  }

  /** `parr(K=1, tau=10, theta=3)` gives the same as Moros-Rosenberg. */
  lemma ParrExample()
    ensures var o := Parr(1.0, 10.0, 3.0, PI);
      Yields(o, 2) && Kp(o) == 91.0 / 30.0 && Ki(o) == 91.0 / 297.0
  {
  }

  /** Cohen-Coon PID at `K=1.25, tau=4, theta=0.9`: `Kp = 4.9407...`,
      `Kp/Ki = 2.2533...` and `Kd/Kp = 0.38816...`. */
  lemma CohenCoonExample()
    ensures var o := CohenCoon(1.25, 4.0, 0.9, PID);
      && Yields(o, 3) && Kp(o) == 667.0 / 135.0
      && Kp(o) / Ki(o) == 667.0 / 296.0 && Kd(o) / Kp(o) == 800.0 / 2061.0
  {
  }

  /** `fertik_sharpe(K=1, tau=10, theta=3)` gives `[0.56, 0.086153...]`. */
  lemma FertikSharpeExample()
    ensures var o := FertikSharpe(1.0, 10.0, 3.0, PI);
      Yields(o, 2) && Kp(o) == 0.56 && Ki(o) == 28.0 / 325.0
  {
  }

  /** `sakai(K=1, tau=10, theta=3)` gives `[4.136, 2.7573...]`. */
  lemma SakaiExample()
    ensures var o := Sakai(1.0, 10.0, 3.0, PI);
      Yields(o, 2) && Kp(o) == 4.136 && Ki(o) == 1034.0 / 375.0
  {
  }

  /** `borresen_grindal(K=1, tau=10, theta=3)` gives `[3.333..., 0.37037...]`. */
  lemma BorresenGrindalExample()
    ensures var o := BorresenGrindal(1.0, 10.0, 3.0, PI);
      Yields(o, 2) && Kp(o) == 10.0 / 3.0 && Ki(o) == 10.0 / 27.0
  {
  }

  /** `klein(K=1, tau=10, theta=3)` gives `[0.7, 0.13207...]`. */
  lemma KleinExample()
    ensures var o := Klein(1.0, 10.0, 3.0, PI);
      Yields(o, 2) && Kp(o) == 0.7 && Ki(o) == 7.0 / 53.0
  {
  }

  /** At `K=1, tau=10, theta=3` the McMillan formula as coded gives
      `Ki = 1/9`, not the `1.0` its example shows. */
  lemma McMillanAsCoded()
    ensures var o := McMillan(1.0, 10.0, 3.0, PI);
      Yields(o, 2) && Kp(o) == 1.0 / 3.0 && Ki(o) == 1.0 / 9.0 && Ki(o) != 1.0
  {
  }

  // ---------------------------------------------------------------------
  // The Hazebroek-Van der Waerden correction factors
  // ---------------------------------------------------------------------

  /** At every breakpoint both correction factors are the tabulated values. */
  lemma CorrectionsAtBreakpoints(k: nat)
    requires k < 26
    ensures CorrectionX1(ThetaOverTauTable()[k]) == X1Table()[k]
    ensures CorrectionX2(ThetaOverTauTable()[k]) == X2Table()[k]
  {
    InterpAtBreakpoint(ThetaOverTauTable(), X1Table(), k);
    InterpAtBreakpoint(ThetaOverTauTable(), X2Table(), k);
  }

  /** Outside the table both factors keep the value of the nearer end,
      as `numpy.interp` does. */
  lemma CorrectionsClamped(ratio: real)
    ensures ratio <= 0.2 ==> CorrectionX1(ratio) == 0.68 && CorrectionX2(ratio) == 7.14
    ensures ratio >= 3.4 ==> CorrectionX1(ratio) == 1.81 && CorrectionX2(ratio) == 0.80
  {
  }

  /** The middle breakpoint, `theta/tau = 2.0`, where `x2` is exactly 1. */
  lemma CorrectionsAtTwo()
    ensures CorrectionX1(2.0) == 1.20 && CorrectionX2(2.0) == 1.00
  {
    assert ThetaOverTauTable()[18] == 2.0;
    CorrectionsAtBreakpoints(18);
    assert X1Table()[18] == 1.20 && X2Table()[18] == 1.00;
  }

  /** Strictly between two neighbouring breakpoints, `x1` lies strictly
      between its two tabulated values and so does `x2`, in the other order. */
  lemma CorrectionsBracketed(ratio: real, k: nat)
    requires k < 25
    requires ThetaOverTauTable()[k] < ratio < ThetaOverTauTable()[k + 1]
    ensures X1Table()[k] < CorrectionX1(ratio) < X1Table()[k + 1]
    ensures X2Table()[k + 1] < CorrectionX2(ratio) < X2Table()[k]
  {
    InterpBrackets(ratio, ThetaOverTauTable(), X1Table(), k);
    InterpBrackets(ratio, ThetaOverTauTable(), X2Table(), k);
  }

  // ---------------------------------------------------------------------
  // Signs of the gains on a physical process
  // ---------------------------------------------------------------------

  /** If `x*p == y` with `p > 0`, then `x` and `y` have the same sign. */
  lemma SameSign(x: real, p: real, y: real)
    requires p > 0.0 && x * p == y
    ensures (x > 0.0 <==> y > 0.0) && (x == 0.0 <==> y == 0.0) && (x < 0.0 <==> y < 0.0)
  {
  }

  /** Two positive gains make a positive outcome. */
  lemma TwoGainsPositive(o: Outcome)
    requires Yields(o, 2) && Kp(o) > 0.0 && Ki(o) > 0.0
    ensures AllPositive(o)
  {
  }

  /** The same shape for a whole outcome of two or three gains, the third
      being `d*theta*Kp`. */
  lemma RatioGainsPositive(o: Outcome, K: real, tau: real, theta: real, a: real, b: real, d: real)
    requires o.Gains? && (|o.values| == 2 || |o.values| == 3)
    requires K > 0.0 && tau > 0.0 && theta > 0.0 && a > 0.0 && b > 0.0 && d > 0.0
    requires Kp(o) * K * theta == a * tau && Ki(o) * (b * theta) == Kp(o)
    requires |o.values| == 3 ==> Kd(o) == d * theta * Kp(o)
    ensures AllPositive(o)
  {
  }

  /** Callender's gains are all positive. */
  lemma CallenderPositive(K: real, tau: real, theta: real, c: Controller, criteria: int)
    requires K > 0.0 && tau > 0.0 && theta > 0.0
    ensures Callender(K, tau, theta, c, criteria).Gains? ==> AllPositive(Callender(K, tau, theta, c, criteria))
  {
    var o := Callender(K, tau, theta, c, criteria);
    if criteria == 1 {
      RatioGainsPositive(o, K, 1.0, theta, 0.568, 3.64, 1.0);
    } else if criteria == 2 && c == PI {
      RatioGainsPositive(o, K, 1.0, theta, 0.690, 2.45, 1.0);
    } else if criteria == 2 && c == PID {
      RatioGainsPositive(o, K, 1.0, theta, 1.066, 1.418, 0.47);
    }
  }

  /** Ziegler-Nichols' gains are all positive. */
  lemma ZieglerNicholsPositive(K: real, tau: real, theta: real, c: Controller)
    requires K > 0.0 && tau > 0.0 && theta > 0.0
    ensures ZieglerNichols(K, tau, theta, c).Gains? ==> AllPositive(ZieglerNichols(K, tau, theta, c))
  {
  }

  /** The tabulated-range gains are positive for a positive `x1`. */
  lemma TabulatedPositive(K: real, tau: real, theta: real, x1: real, x2: real)
    requires K > 0.0 && tau > 0.0 && theta > 0.0
    requires 0.2 <= theta / tau && 0.80 <= x2 && x1 > 0.0
    ensures AllPositive(TabulatedGains(K, tau, theta, x1, x2))
  {
  }

  /** The closed-form gains are positive, because `1.6*theta - 1.2*tau > 0`
      above `theta/tau = 3.4`. */
  lemma ClosedFormPositive(K: real, tau: real, theta: real)
    requires K > 0.0 && tau > 0.0 && theta > 0.0 && theta / tau > 3.4
    ensures AllPositive(ClosedFormGains(K, tau, theta))
  {
    var o := ClosedFormGains(K, tau, theta);
    var ratio := theta / tau;
    ClosedFormDenominator(tau, theta);
    assert 1.6 * theta - 1.2 * tau > 0.0;
    PositiveProduct(K, ratio);
    SameSign(Kp(o), K * ratio, 0.5 * ratio + 1.0);
    PositiveProduct(Kp(o), 1.6 * theta - 1.2 * tau);
    SameSign(Ki(o), theta, Kp(o) * (1.6 * theta - 1.2 * tau));
    TwoGainsPositive(o);
  }

  /** Hazebroek-Van der Waerden's gains are positive wherever it gives any. */
  lemma HazebroekPositive(K: real, tau: real, theta: real, c: Controller)
    requires K > 0.0 && tau > 0.0 && theta > 0.0
    ensures HazebroekVanDerWaerden(K, tau, theta, c).Gains? ==>
      AllPositive(HazebroekVanDerWaerden(K, tau, theta, c))
  {
    var ratio := theta / tau;
    if 0.2 <= ratio <= 3.4 {
      TabulatedPositive(K, tau, theta, CorrectionX1(ratio), CorrectionX2(ratio));
    } else if ratio > 3.4 {
      ClosedFormPositive(K, tau, theta);
    }
  }

  /** Oppelt's gains share the sign of `0.77 - theta/tau`: positive below
      0.77, zero at 0.77, and negative throughout the branch above
      `theta/tau = 1`. */
  lemma OppeltSign(K: real, tau: real, theta: real, c: Controller)
    requires K > 0.0 && tau > 0.0 && theta > 0.0 && theta / tau != 1.0
    ensures var o := Oppelt(K, tau, theta, c);
      && (Kp(o) > 0.0 <==> theta / tau < 0.77)
      && (Kp(o) == 0.0 <==> theta / tau == 0.77)
      && (Ki(o) > 0.0 <==> Kp(o) > 0.0)
      && (Ki(o) == 0.0 <==> Kp(o) == 0.0)
      && (Ki(o) < 0.0 <==> Kp(o) < 0.0)
      && (theta / tau > 1.0 ==> Kp(o) < 0.0 && Ki(o) < 0.0)
  {
  }

  /** Moros-Oppelt gives positive gains. */
  lemma MorosOppeltPositive(K: real, tau: real, theta: real, c: Controller)
    requires K > 0.0 && tau > 0.0 && theta > 0.0
    ensures MorosOppelt(K, tau, theta, c).Gains? ==> AllPositive(MorosOppelt(K, tau, theta, c))
  {
  }

  /** Moros-Rosenberg gives positive gains. */
  lemma MorosRosenbergPositive(K: real, tau: real, theta: real, c: Controller)
    requires K > 0.0 && tau > 0.0 && theta > 0.0
    ensures MorosRosenberg(K, tau, theta, c).Gains? ==> AllPositive(MorosRosenberg(K, tau, theta, c))
  {
  }

  /** Cohen-Coon is defined on every physical process, and its gains are
      positive there. */
  lemma CohenCoonPositive(K: real, tau: real, theta: real, c: Controller)
    requires K > 0.0 && tau > 0.0 && theta > 0.0
    ensures CohenCoonDefined(K, tau, theta, c)
    ensures c != PD ==> AllPositive(CohenCoon(K, tau, theta, c))
  {
    if c == PID {
      CohenCoonPIDPositive(K, tau, theta);
    }
  }

  /** Cohen-Coon's PID gains are positive on a physical process. */
  lemma CohenCoonPIDPositive(K: real, tau: real, theta: real)
    requires K > 0.0 && tau > 0.0 && theta > 0.0
    ensures CohenCoonDefined(K, tau, theta, PID) && AllPositive(CohenCoon(K, tau, theta, PID))
  {
    var ratio := theta / tau;
    var o := CohenCoon(K, tau, theta, PID);
    CohenCoonPID(K, tau, theta);
    PositiveProduct(theta, 11.0 + 2.0 * ratio);
    SameSign(Kd(o), theta * (11.0 + 2.0 * ratio), 4.0 * Kp(o));
  }

  /** Fertik-Sharpe gives positive gains on a physical process. */
  lemma FertikSharpePositive(K: real, tau: real, theta: real, c: Controller)
    requires K > 0.0 && tau > 0.0 && theta > 0.0
    ensures AllPositive(FertikSharpe(K, tau, theta, c))
  {
  }

  /** Sakai gives positive gains on a physical process. */
  lemma SakaiPositive(K: real, tau: real, theta: real, c: Controller)
    requires K > 0.0 && tau > 0.0 && theta > 0.0
    ensures AllPositive(Sakai(K, tau, theta, c))
  {
  }

  /** Klein gives positive gains on a physical process. */
  lemma KleinPositive(K: real, tau: real, theta: real, c: Controller)
    requires K > 0.0 && tau > 0.0 && theta > 0.0
    ensures AllPositive(Klein(K, tau, theta, c))
  {
  }

  /** McMillan gives positive gains on a physical process. */
  lemma McMillanPositive(K: real, tau: real, theta: real, c: Controller)
    requires K > 0.0 && tau > 0.0 && theta > 0.0
    ensures AllPositive(McMillan(K, tau, theta, c))
  {
  }

  /** St. Clair gives positive gains on a physical process. */
  lemma StClairPositive(K: real, tau: real, theta: real, c: Controller)
    requires K > 0.0 && tau > 0.0 && theta > 0.0
    ensures AllPositive(StClair(K, tau, theta, c))
  {
  }

  /** Shinskey, Faanes-Skogestad and PMA give positive gains. */
  lemma PIOnlyFormulasPositive(K: real, tau: real, theta: real, c: Controller)
    requires K > 0.0 && tau > 0.0 && theta > 0.0
    ensures AllPositive(Shinskey(K, tau, theta, c))
    ensures AllPositive(FaanesSkogestad(K, tau, theta, c))
    ensures AllPositive(Pma(K, tau, theta, c))
  {
  }

  /** Parr gives positive gains. */
  lemma ParrPositive(K: real, tau: real, theta: real, c: Controller)
    requires K > 0.0 && tau > 0.0 && theta > 0.0
    ensures Parr(K, tau, theta, c).Gains? ==> AllPositive(Parr(K, tau, theta, c))
  {
  }

  /** Borresen-Grindal gives positive gains. */
  lemma BorresenGrindalPositive(K: real, tau: real, theta: real, c: Controller)
    requires K > 0.0 && tau > 0.0 && theta > 0.0
    ensures BorresenGrindal(K, tau, theta, c).Gains? ==> AllPositive(BorresenGrindal(K, tau, theta, c))
  {
  }

  /** Liptak gives positive gains. */
  lemma LiptakPositive(K: real, tau: real, theta: real, c: Controller)
    requires K > 0.0 && tau > 0.0 && theta > 0.0
    ensures Liptak(K, tau, theta, c).Gains? ==> AllPositive(Liptak(K, tau, theta, c))
  {
    var o := Liptak(K, tau, theta, c);
    if c == PI {
      RatioGainsPositive(o, K, tau, theta, 0.95, 4.0, 1.0);
    } else if c == PID {
      RatioGainsPositive(o, K, tau, theta, 0.85, 1.6, 1.0);
    }
  }

  /** Chidambaram gives positive gains. */
  lemma ChidambaramPositive(K: real, tau: real, theta: real, c: Controller)
    requires K > 0.0 && tau > 0.0 && theta > 0.0
    ensures Chidambaram(K, tau, theta, c).Gains? ==> AllPositive(Chidambaram(K, tau, theta, c))
  {
  }

  // ---------------------------------------------------------------------
  // Relations between rules and between branches
  // ---------------------------------------------------------------------

  /** Ziegler-Nichols scales one proportional gain: PI takes 0.9 and PID
      1.2 of the P controller's `tau/(K*theta)`. */
  lemma ZieglerNicholsScaling(K: real, tau: real, theta: real)
    requires K != 0.0 && theta != 0.0
    ensures Kp(ZieglerNichols(K, tau, theta, PI)) == 0.9 * Kp(ZieglerNichols(K, tau, theta, P))
    ensures Kp(ZieglerNichols(K, tau, theta, PID)) == 1.2 * Kp(ZieglerNichols(K, tau, theta, P))
  {
  }

  /** Ziegler-Nichols' integral and derivative times, `Kp/Ki` and `Kd/Kp`:
      `3.3*theta` for PI, `2*theta` and `0.5*theta` for PID. */
  lemma ZieglerNicholsTimes(K: real, tau: real, theta: real)
    requires K != 0.0 && theta != 0.0 && tau != 0.0
    ensures var o := ZieglerNichols(K, tau, theta, PI);
      Kp(o) / Ki(o) == 3.3 * theta
    ensures var o := ZieglerNichols(K, tau, theta, PID);
      Kp(o) / Ki(o) == 2.0 * theta && Kd(o) / Kp(o) == 0.5 * theta
  {
  }


  /** Borresen-Grindal's PID gains begin with its PI gains. */
  lemma BorresenGrindalExtendsPI(K: real, tau: real, theta: real)
    requires tau != 0.0 && K != 0.0 && theta != 0.0
    ensures BorresenGrindal(K, tau, theta, PID).values[..2] == BorresenGrindal(K, tau, theta, PI).values
  {
  }

  /** Moros-Rosenberg and Parr agree on the PI controller, and differ on
      the PID controller's proportional gain. */
  lemma MorosRosenbergParr(K: real, tau: real, theta: real)
    requires tau != 0.0 && K != 0.0 && theta != 0.0
    ensures MorosRosenberg(K, tau, theta, PI) == Parr(K, tau, theta, PI)
    ensures Kp(Parr(K, tau, theta, PID)) * 1.2 == Kp(MorosRosenberg(K, tau, theta, PID)) * 1.25
  {
  }

  /** Under the first criterion Callender gives the same gains whatever the
      controller type; under the second, only PI and PID give gains. */
  lemma CallenderControllerUse(K: real, tau: real, theta: real, c1: Controller, c2: Controller)
    requires K != 0.0 && theta != 0.0
    ensures Callender(K, tau, theta, c1, 1) == Callender(K, tau, theta, c2, 1)
    ensures Callender(K, tau, theta, c1, 2).Gains? <==> c1 == PI || c1 == PID
  {
  }

  /** The rules that never read the controller type. */
  lemma ControllerIgnored(K: real, tau: real, theta: real, c1: Controller, c2: Controller)
    requires tau != 0.0 && K != 0.0 && theta != 0.0
    ensures HazebroekVanDerWaerden(K, tau, theta, c1) == HazebroekVanDerWaerden(K, tau, theta, c2)
    ensures theta / tau != 1.0 ==> Oppelt(K, tau, theta, c1) == Oppelt(K, tau, theta, c2)
    ensures FertikSharpe(K, tau, theta, c1) == FertikSharpe(K, tau, theta, c2)
    ensures Sakai(K, tau, theta, c1) == Sakai(K, tau, theta, c2)
    ensures theta / tau + 0.1 != 0.0 ==> Klein(K, tau, theta, c1) == Klein(K, tau, theta, c2)
    ensures McMillan(K, tau, theta, c1) == McMillan(K, tau, theta, c2)
    ensures StClair(K, tau, theta, c1) == StClair(K, tau, theta, c2)
    ensures Shinskey(K, tau, theta, c1) == Shinskey(K, tau, theta, c2)
    ensures FaanesSkogestad(K, tau, theta, c1) == FaanesSkogestad(K, tau, theta, c2)
    ensures Pma(K, tau, theta, c1) == Pma(K, tau, theta, c2)
  {
  }

  /** Asked for a PID controller, Liptak hands back two gains where the
      controller needs three: the derivative gain it computes is dropped,
      as `liptak(1, 10, 3, type_of_controller='PID')` shows. The corrected
      rule returns all three. */
  lemma LiptakDropsDerivative(K: real, tau: real, theta: real)
    requires tau != 0.0 && K != 0.0 && theta != 0.0
    ensures Yields(Liptak(K, tau, theta, PID), 2) && !Yields(Liptak(K, tau, theta, PID), Arity(PID))
    ensures Yields(LiptakWithDerivative(K, tau, theta, PID), Arity(PID))
  {
  }

  /** The same for Chidambaram, as `chidambaram(1, 10, 3,
      type_of_controller='PID')` shows. */
  lemma ChidambaramDropsDerivative(K: real, tau: real, theta: real)
    requires tau != 0.0 && K != 0.0 && theta != 0.0
    ensures Yields(Chidambaram(K, tau, theta, PID), 2) && !Yields(Chidambaram(K, tau, theta, PID), Arity(PID))
    ensures Yields(ChidambaramWithDerivative(K, tau, theta, PID), Arity(PID))
  {
  }

  /** Every rule that distinguishes the controller type yields `Arity(c)`
      gains for each type it handles. */
  lemma ArityFollowsController(K: real, tau: real, theta: real, c: Controller)
    requires tau != 0.0 && K != 0.0 && theta != 0.0
    ensures c != PD ==> Yields(ZieglerNichols(K, tau, theta, c), Arity(c))
    ensures CohenCoonDefined(K, tau, theta, c) && c != PD ==> Yields(CohenCoon(K, tau, theta, c), Arity(c))
    ensures c == PI || c == PID ==>
      && Yields(MorosOppelt(K, tau, theta, c), Arity(c))
      && Yields(MorosRosenberg(K, tau, theta, c), Arity(c))
      && Yields(Parr(K, tau, theta, c), Arity(c))
      && Yields(BorresenGrindal(K, tau, theta, c), Arity(c))
      && Yields(LiptakWithDerivative(K, tau, theta, c), Arity(c))
      && Yields(ChidambaramWithDerivative(K, tau, theta, c), Arity(c))
    ensures c == PI || c == PID ==> Yields(Callender(K, tau, theta, c, 2), Arity(c))
  {
  }
}
