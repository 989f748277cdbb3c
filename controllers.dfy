/** The calling convention shared by every tuning rule: the controller
    structure a caller asks for, and what a rule hands back. */
module Controllers {

  /** The `type_of_controller` argument. The rules only ever test for the
      strings 'P', 'PI' and 'PID'; `PD` stands for every other string, which
      no branch of any rule matches. */
  datatype Controller = P | PI | PD | PID

  /** What a rule returns: a list of gains `[Kp]`, `[Kp, Ki]` or
      `[Kp, Ki, Kd]`; the explicit empty list `[]`; or Python's implicit
      `None` when control falls off the end of the function. */
  datatype Outcome = Gains(values: seq<real>) | EmptyList | NoResult

  /** Number of gains a rule that honours the controller structure returns. */
  function Arity(c: Controller): (n: nat)
    requires c != PD
    ensures 1 <= n <= 3
    ensures n == 1 <==> c == P
    ensures n == 3 <==> c == PID
  {
    match c
    case P => 1
    case PI => 2
    case PID => 3
  }

  /** The outcome is a list of exactly `n` gains. */
  predicate Yields(o: Outcome, n: nat) {
    o.Gains? && |o.values| == n
  }

  /** Every gain in the outcome is strictly positive. */
  predicate AllPositive(o: Outcome) {
    o.Gains? && forall i :: 0 <= i < |o.values| ==> o.values[i] > 0.0
  }

  /** The proportional gain, first in every list of gains. */
  function Kp(o: Outcome): real
    requires o.Gains? && |o.values| >= 1
  {
    o.values[0]
  }

  /** The integral gain, second in the list. */
  function Ki(o: Outcome): real
    requires o.Gains? && |o.values| >= 2
  {
    o.values[1]
  }

  /** The derivative gain, third in the list. */
  function Kd(o: Outcome): real
    requires o.Gains? && |o.values| >= 3
  {
    o.values[2]
  }
}
