/** Shared vocabulary of the calculator: the optional value, the power
    function the formula is parameterised by, a daily sample of the
    projection, and the unit table that maps a unit name to its length in
    days. */
module Common {

  datatype Option<T> = None | Some(value: T) {
    /** The value, or `default` when there is none (Python's `dict.get(k, default)`). */
    function GetOr(default: T): T {
      match this
      case Some(v) => v
      case None => default
    }
  }

  /** Python's floating-point `b ** e`. It is not modelled: every operation
      that needs it takes it as a parameter. */
  type Power = (real, real) -> real

  /** The one law of `**` the model relies on: anything to the power 0 is 1. */
  ghost predicate ZeroPowerIsOne(pow: Power) {
    forall b: real :: pow(b, 0.0) == 1.0
  }

  /** One `(day, amount)` tuple of `plot_data`. */
  datatype Sample = Sample(day: int, amount: real)

  /** The table `{"年": 365, "月": 30, "周": 7, "日": 1}` (year, month, week,
      day). It is used both to turn a duration into days and as the length of
      one chart display unit. */
  function DaysIn(unit: string): (days: Option<nat>)
    ensures days.Some? <==> unit in {"年", "月", "周", "日"}
    ensures unit == "年" ==> days == Some(365)
    ensures unit == "月" ==> days == Some(30)
    ensures unit == "周" ==> days == Some(7)
    ensures unit == "日" ==> days == Some(1)
  {
    if unit == "年" then Some(365)
    else if unit == "月" then Some(30)
    else if unit == "周" then Some(7)
    else if unit == "日" then Some(1)
    else None
  }

  function Abs(x: real): (r: real)
    ensures r >= 0.0 && (r == x || r == -x)
  {
    if x < 0.0 then -x else x
  }
}
