# turu — PID tuning rules, modelled and proved in Dafny

`turu.py` collects nineteen tuning rules for PI and PID controllers of a
first-order-plus-dead-time process with static gain `K`, time constant
`tau` and dead time `theta`. Each rule takes these three numbers and a
controller type, and returns a list of gains: `[Kp]`, `[Kp, Ki]` or
`[Kp, Ki, Kd]`. Some rules return `[]` outside the range they cover, and
some fall off the end of the function and so return `None`.

The model has four modules:

- `Controllers` (controllers.dfy) holds the calling convention.
  - `Controller` is the controller type. The rules only test for `'P'`,
    `'PI'` and `'PID'`; `PD` stands for every other string.
  - `Outcome` is what a rule returns: `Gains(values)`, `EmptyList` for
    `[]`, or `NoResult` for the implicit `None`.
- `Interpolation` (interpolation.dfy) is a piecewise-linear `Interp`. It
  behaves like `numpy.interp` with its default arguments: a straight line
  between neighbouring breakpoints, and the end value outside the table.
  It comes with its properties: exact at every breakpoint, bracketed
  between neighbouring values, and within the range of the tabulated
  values.
- `Turu` (turu.dfy) has one function per rule, with the same branches, the
  same constants and the same outcomes as the Python. Each contract states
  the design relation the rule produces, such as `Kp*K*theta == 0.9*tau`
  and `Ki*(3.3*theta) == Kp`, which the rule's formula solves for. Every
  rule's `requires` says exactly when the branch it takes divides by no
  zero.
- `TuruProperties` (turu_properties.dfy) holds the rest:
  - every documented example, as exact rationals;
  - the interpolated correction factors of Hazebroek–Van der Waerden;
  - the sign of every rule's gains on a physical process
    (`K, tau, theta > 0`);
  - relations between rules, and between branches of one rule.

## Model

| member | source | states |
|---|---|---|
| Controllers.Arity | turu.py:122-133 | `P` takes one gain, `PI` two and `PID` three; exactly one gain iff `P`, exactly three iff `PID` |
| Interpolation.Interp | turu.py:192-193 | `numpy.interp` over an increasing table: the first tabulated value at or left of the first breakpoint, the last value at or right of the last one |
| Interpolation.LerpBetween | turu.py:192-193 | the line between two breakpoints takes the two tabulated values at its ends and stays between them, strictly inside when the values differ |
| Interpolation.InterpOnSegment | turu.py:192-193 | between breakpoints `k` and `k+1`, the interpolant is the straight line through those two tabulated points |
| Interpolation.InterpAtBreakpoint | turu.py:192-193 | at every breakpoint the interpolant is exactly the tabulated value |
| Interpolation.InterpBrackets | turu.py:192-193 | strictly between two breakpoints the interpolant lies strictly between the two neighbouring values, for either order of them |
| Interpolation.InterpWithin | turu.py:192-193 | a range holding every tabulated value holds the interpolant, wherever it is evaluated |
| Turu.Callender | turu.py:58-73 | `[]` iff `criteria` is neither 1 nor 2; `None` iff criterion 2 with neither PI nor PID; criterion 1: two gains with `Kp*K*theta == 0.568` and integral time `3.64*theta`; criterion 2 PI: 0.690 and `2.45*theta`; criterion 2 PID: three gains with 1.066, `1.418*theta` and `Kd == 0.47*theta*Kp` |
| Turu.ZieglerNichols | turu.py:122-133 | `None` iff PD; otherwise `Arity(c)` gains with `Kp*K*theta` equal to `tau`, `0.9*tau` or `1.2*tau`; integral time `3.3*theta` (PI) or `2*theta` (PID); `Kd == 0.5*theta*Kp` |
| Turu.ThetaOverTauTable | turu.py:186-187 | 26 breakpoints, strictly increasing from 0.2 to 3.4 |
| Turu.X1Table | turu.py:188-189 | 26 values of `x1`, strictly increasing from 0.68 to 1.81 |
| Turu.X2Table | turu.py:190-191 | 26 values of `x2`, strictly decreasing from 7.14 to 0.80 |
| Turu.CorrectionX1 | turu.py:192 | the interpolated `x1` lies in `[0.68, 1.81]` |
| Turu.CorrectionX2 | turu.py:193 | the interpolated `x2` lies in `[0.80, 7.14]`, so it is never zero |
| Turu.HazebroekVanDerWaerden | turu.py:182-200 | three-way split on `theta/tau`: `[]` iff below 0.2; from 0.2 to 3.4, the tabulated gains at the interpolated `x1` and `x2`; above 3.4, the closed form; two gains whenever it gives any |
| Turu.TabulatedGains | turu.py:194-196 | two gains with `Kp*K*theta/tau == x1` and integral time `x2*theta` |
| Turu.ClosedFormGains | turu.py:198-200 | two gains with `Kp*K*theta/tau == 0.5*theta/tau + 1` and `Ki*theta == Kp*(1.6*theta - 1.2*tau)` |
| Turu.ClosedFormDenominator | turu.py:197-199 | above `theta/tau = 3.4`, `1.6*theta - 1.2*tau` has the sign of `tau`; so neither it nor `theta` is zero |
| Turu.Oppelt | turu.py:249-257 | `None` iff `theta/tau == 1`; otherwise two gains with `Kp*K == 0.77*tau/theta - 1`; integral time `3.32*theta` below 1 and `1.66*theta` above 1 |
| Turu.MorosOppelt | turu.py:306-315 | `None` iff P or PD; PI: `Kp*K*theta == 0.8*tau` and integral time `3*theta`; PID: 1.2, `2*theta`, `Kd == 0.42*theta*Kp` |
| Turu.MorosRosenberg | turu.py:364-373 | `None` iff P or PD; PI: 0.91 and `3.3*theta`; PID: 1.2, `2*theta`, `Kd == 0.44*theta*Kp` |
| Turu.CohenCoon | turu.py:422-433 | `None` iff PD; otherwise `Arity(c)` gains; P: `Kp*K == tau/theta + 1/3` |
| Turu.CohenCoonPI | turu.py:425-428 | `Kp*K == 0.9*tau/theta + 1/12` and `Ki*(30 + 3*theta/tau) == Kp*(9 + 20*theta/tau)` |
| Turu.CohenCoonPID | turu.py:429-433 | `Kp*K == (4/3)*tau/theta + 1/4`, `Ki*(32 + 6*theta/tau) == Kp*(13 + 8*theta/tau)` and `Kd*theta*(11 + 2*theta/tau) == 4*Kp` |
| Turu.FertikSharpe | turu.py:482-484 | two gains whatever the controller type: `Kp*K == 0.56` and integral time `0.65*tau` |
| Turu.Parr | turu.py:533-542 | `None` iff P or PD; PI: 0.91 and `3.3*theta`; PID: 1.25, `2.5*theta`, `Kd == 0.4*theta*Kp` |
| Turu.Sakai | turu.py:591-594 | two gains whatever the type: `Kp*K*theta == 1.2408*tau` and integral time `0.5*theta` |
| Turu.BorresenGrindal | turu.py:643-652 | `None` iff P or PD; PI and PID share `Kp*K*theta == tau` and integral time `3*theta`; PID adds `Kd == 0.5*theta*Kp` |
| Turu.Klein | turu.py:701-704 | two gains whatever the type: `Kp*K*(theta/tau + 0.1) == 0.28` and integral time `0.53*tau` |
| Turu.McMillan | turu.py:753-756 | two gains whatever the type: `3*Kp == K` and integral time `theta` |
| Turu.StClair | turu.py:805-808 | two gains whatever the type: `Kp*K*theta == 0.333*tau`, and the second gain is `tau` itself |
| Turu.Shinskey | turu.py:857-860 | two gains whatever the type: 0.667 and integral time `3.78*theta` |
| Turu.Liptak | turu.py:909-918 | `None` iff P or PD; two gains for both PI and PID; PI: 0.95 and `4*theta`; PID: 0.85 and `1.6*theta` |
| Turu.LiptakWithDerivative | turu.py:914-918 | the PID branch as evidently intended: three gains, the first two being Liptak's, and `Kd == 0.6*theta*Kp`; PI unchanged |
| Turu.Chidambaram | turu.py:967-976 | `None` iff P or PD; two gains for both PI and PID; PI: `Kp*K*theta == 0.4*theta + 0.665*tau` and `3.4*theta`; PID: `0.45*theta + 1.8*tau` and `2.4*theta` |
| Turu.ChidambaramWithDerivative | turu.py:972-976 | the PID branch as evidently intended: three gains, the first two being Chidambaram's, and `Kd == 0.38*theta*Kp`; PI unchanged |
| Turu.FaanesSkogestad | turu.py:1025-1028 | two gains whatever the type: 0.71 and integral time `3.3*theta` |
| Turu.Pma | turu.py:1077-1080 | two gains whatever the type: 0.39 and integral time `6*theta` |
| TuruProperties.CallenderExample | turu.py:50-51 | `callender(1, 10, 3)` is exactly `[71/375, 71/4095]` |
| TuruProperties.ZieglerNicholsExample | turu.py:114-115 | Ziegler–Nichols PID at `(1.25, 4, 0.9)` has `Kp = 64/15`, `Kp/Ki = 1.8` and `Kd/Kp = 0.45` |
| TuruProperties.HazebroekExample | turu.py:174-175 | at `theta/tau = 0.3` the factors are 0.70 and 4.76, and `hazebroek_vanderwaerden(1, 10, 3)` is `[7/3, 25/153]` |
| TuruProperties.OppeltExample | turu.py:241-242 | `oppelt(1, 10, 3)` is `[47/30, 235/1494]` |
| TuruProperties.MorosOppeltExample | turu.py:298-299 | `moros_oppelt(1, 10, 3)` is `[8/3, 8/27]` |
| TuruProperties.MorosRosenbergExample | turu.py:356-357 | `moros_rosenberg(1, 10, 3)` is `[91/30, 91/297]` |
| TuruProperties.ParrExample | turu.py:525-526 | `parr(1, 10, 3)` is `[91/30, 91/297]`, the same as Moros–Rosenberg |
| TuruProperties.CohenCoonExample | turu.py:414-415 | Cohen–Coon PID at `(1.25, 4, 0.9)` has `Kp = 667/135`, `Kp/Ki = 667/296` and `Kd/Kp = 800/2061` |
| TuruProperties.FertikSharpeExample | turu.py:474-475 | `fertik_sharpe(1, 10, 3)` is `[0.56, 28/325]` |
| TuruProperties.SakaiExample | turu.py:583-584 | `sakai(1, 10, 3)` is `[4.136, 1034/375]` |
| TuruProperties.BorresenGrindalExample | turu.py:635-636 | `borresen_grindal(1, 10, 3)` is `[10/3, 10/27]` |
| TuruProperties.KleinExample | turu.py:693-694 | `klein(1, 10, 3)` is `[0.7, 7/53]` |
| TuruProperties.McMillanAsCoded | turu.py:754-755 | at `(1, 10, 3)` the code gives `[1/3, 1/9]`, so its second gain is not the documented 1.0 |
| TuruProperties.CorrectionsAtBreakpoints | turu.py:186-193 | at each of the 26 breakpoints both factors are exactly the tabulated values |
| TuruProperties.CorrectionsClamped | turu.py:186-193 | at or below 0.2 the factors are 0.68 and 7.14; at or above 3.4 they are 1.81 and 0.80 |
| TuruProperties.CorrectionsAtTwo | turu.py:186-193 | at `theta/tau = 2.0` the factors are 1.20 and 1.00 |
| TuruProperties.CorrectionsBracketed | turu.py:186-193 | strictly between two neighbouring breakpoints, `x1` lies strictly between its neighbouring values, and so does `x2` in the opposite order |
| TuruProperties.CallenderPositive | turu.py:60-73 | for `K, tau, theta > 0`, every gain Callender returns is positive |
| TuruProperties.ZieglerNicholsPositive | turu.py:122-133 | the same for Ziegler–Nichols |
| TuruProperties.TabulatedPositive | turu.py:194-196 | the tabulated-range gains are positive when `x1` is |
| TuruProperties.ClosedFormPositive | turu.py:197-200 | the closed-form gains above `theta/tau = 3.4` are positive |
| TuruProperties.HazebroekPositive | turu.py:182-200 | every gain Hazebroek–Van der Waerden returns on a physical process is positive |
| TuruProperties.OppeltSign | turu.py:249-257 | on a physical process `Kp > 0` iff `theta/tau < 0.77` and `Kp == 0` iff it equals 0.77; `Ki` has the sign of `Kp`; both are negative throughout the branch above 1 |
| TuruProperties.MorosOppeltPositive | turu.py:307-315 | Moros–Oppelt's gains are positive on a physical process |
| TuruProperties.MorosRosenbergPositive | turu.py:365-373 | Moros–Rosenberg's gains are positive on a physical process |
| TuruProperties.CohenCoonPositive | turu.py:422-433 | Cohen–Coon never divides by zero on a physical process, and its gains are positive there |
| TuruProperties.CohenCoonPIDPositive | turu.py:429-433 | Cohen–Coon's PID gains, the derivative gain included, are positive on a physical process |
| TuruProperties.FertikSharpePositive | turu.py:482-484 | Fertik–Sharpe's gains are positive on a physical process |
| TuruProperties.SakaiPositive | turu.py:591-594 | Sakai's gains are positive on a physical process |
| TuruProperties.KleinPositive | turu.py:701-704 | Klein's gains are positive on a physical process |
| TuruProperties.McMillanPositive | turu.py:753-756 | McMillan's gains are positive on a physical process |
| TuruProperties.StClairPositive | turu.py:805-808 | St. Clair's gains are positive on a physical process |
| TuruProperties.PIOnlyFormulasPositive | turu.py:857-860 | Shinskey's, Faanes–Skogestad's and PMA's gains are positive on a physical process |
| TuruProperties.ParrPositive | turu.py:533-542 | Parr's gains are positive on a physical process |
| TuruProperties.BorresenGrindalPositive | turu.py:643-652 | Borresen–Grindal's gains are positive on a physical process |
| TuruProperties.LiptakPositive | turu.py:909-918 | Liptak's gains are positive on a physical process |
| TuruProperties.ChidambaramPositive | turu.py:967-976 | Chidambaram's gains are positive on a physical process |
| TuruProperties.ZieglerNicholsScaling | turu.py:123-130 | the PI and PID proportional gains are 0.9 and 1.2 times the P controller's |
| TuruProperties.ZieglerNicholsTimes | turu.py:125-133 | `Kp/Ki` is `3.3*theta` for PI and `2*theta` for PID, and `Kd/Kp` is `0.5*theta` |
| TuruProperties.BorresenGrindalExtendsPI | turu.py:644-652 | Borresen–Grindal's PID gains begin with exactly its PI gains |
| TuruProperties.MorosRosenbergParr | turu.py:365-368 | Moros–Rosenberg and Parr agree on PI for all inputs; on PID their `Kp` stand in the ratio 1.2 to 1.25 |
| TuruProperties.CallenderControllerUse | turu.py:58-73 | criterion 1 ignores the controller type; criterion 2 gives gains iff PI or PID |
| TuruProperties.ControllerIgnored | turu.py:182-200 | Hazebroek–Van der Waerden, Oppelt, Fertik–Sharpe, Sakai, Klein, McMillan, St. Clair, Shinskey, Faanes–Skogestad and PMA give the same outcome for every controller type |
| TuruProperties.LiptakDropsDerivative | turu.py:914-918 | asked for PID, `liptak` returns two gains, not the three PID needs; the corrected rule returns three |
| TuruProperties.ChidambaramDropsDerivative | turu.py:972-976 | the same for `chidambaram` |
| TuruProperties.ArityFollowsController | turu.py:122-133 | every rule that tests the controller type gives `Arity(c)` gains for each type it handles: Ziegler–Nichols, Cohen–Coon, the Moros rules, Parr, Borresen–Grindal, Callender's criterion 2 and the corrected Liptak and Chidambaram |

## Left out

- Floating point. The model computes over exact reals, and the example
  lemmas state the documented outputs as exact rationals. IEEE-754 rounding,
  such as the last digit of Klein's `0.7000000000000001`, is not modelled.
- `ZeroDivisionError`. Float division by zero raises in Python. Each rule's
  `requires` holds exactly when the branch taken divides by no zero, so
  the raising path itself is not modelled.
- Turu.HazebroekVanDerWaerden: with `K == 0` and `0.2 <= theta/tau <= 3.4`
  the source divides `numpy.float64` values by zero, which gives `inf`
  with a warning instead of raising, so it returns `[inf, inf]`; the
  `requires` excludes `K == 0` there as well, and infinities are not
  modelled.
- `numpy.interp` is not part of this model. `Interpolation.Interp` stands
  in for it, with its default clamping outside the table. Its handling of
  NaN and its `left`, `right` and `period` arguments are not modelled; the
  rule never passes them.
- `type_of_plant` and `type_of_control` are left out, because no rule reads
  them. The default `type_of_controller='PI'` and `criteria=1` are not
  modelled either: every call names both.
- Controller strings other than `'P'`, `'PI'` and `'PID'`, including
  `'PD'`, are all represented by `PD`. No rule distinguishes between them.
- `criteria` is an `int`. A float argument such as `1.0` compares equal to
  `1` in Python and is not separately modelled.
- The McMillan example shows `[0.333..., 1.0]`, but the code computes
  `Ki = Kp/theta = 1/9`. The model follows the code, as
  `TuruProperties.McMillanAsCoded` states.
- `stclair`, `shinskey`, `liptak`, `chidambaram`, `faanes_skogestad` and
  `pma` document no expected output, so they have no example lemma.
- The validity ranges stated in the documentation of each rule are prose
  only. No rule checks them, and neither does the model.

## Findings

| source | as written | input that shows it | evidently intended | confidence | as-written member | corrected member |
|---|---|---|---|---|---|---|
| turu.py:914-918 | the PID branch computes `Kd = Kp*(0.6*theta)` and then returns `[Kp, Ki]` | `liptak(K=1, tau=10, theta=3, type_of_controller='PID')` returns two gains | return `[Kp, Ki, Kd]`, as every other PID branch does | high; not executed | TuruProperties.LiptakDropsDerivative | Turu.LiptakWithDerivative |
| turu.py:972-976 | the PID branch computes `Kd = Kp*(0.38*theta)` and then returns `[Kp, Ki]` | `chidambaram(K=1, tau=10, theta=3, type_of_controller='PID')` returns two gains | return `[Kp, Ki, Kd]` | high; not executed | TuruProperties.ChidambaramDropsDerivative | Turu.ChidambaramWithDerivative |
