/**
  The serial port both engines open with a bounded number of attempts. Whether
  the hardware accepts an open is not under the program's control: the port
  carries an oracle `opens(k)` telling whether its k-th open attempt (from 0)
  succeeds. The retry loop itself lives in the engines; the functions here say
  how many attempts that loop makes and whether it ends with the port open.
*/
module Serial {

  class SerialPort {
    const portName: string
    const baudRate: int
    const opens: nat -> bool
    var isOpen: bool
    var attempts: nat

    constructor (portName: string, baudRate: int, opens: nat -> bool)
      ensures this.portName == portName && this.baudRate == baudRate && this.opens == opens
      ensures !isOpen && attempts == 0
    {
      this.portName := portName;
      this.baudRate := baudRate;
      this.opens := opens;
      isOpen := false;
      attempts := 0;
    }

    /** `port.Open()`: one attempt, which either opens the port or throws. */
    method Open() returns (ok: bool)
      modifies this
      ensures attempts == old(attempts) + 1
      ensures ok == opens(old(attempts))
      ensures isOpen == (old(isOpen) || ok)
    {
      ok := opens(attempts);
      attempts := attempts + 1;
      if ok {
        isOpen := true;
      }
    }
  }

  /**
    Open attempts made by the loop `tryCount := 1; while !open && tryCount <= budget`
    when only failures advance `tryCount`, the first attempt being number `start`.
  */
  function AttemptsMade(opens: nat -> bool, start: nat, budget: int): (r: nat)
    ensures r == 0 <==> budget <= 0
    decreases budget
  {
    if budget <= 0 then 0
    else if opens(start) then 1
    else 1 + AttemptsMade(opens, start + 1, budget - 1)
  }

  /** Whether that loop ends with the port open: then its last attempt is the one that succeeded. */
  predicate OpensWithin(opens: nat -> bool, start: nat, budget: int)
    ensures OpensWithin(opens, start, budget) ==>
              AttemptsMade(opens, start, budget) >= 1 && opens(start + AttemptsMade(opens, start, budget) - 1)
    decreases budget
  {
    budget > 0 && (opens(start) || OpensWithin(opens, start + 1, budget - 1))
  }

  /** At most `budget` attempts, none when the budget is zero or negative. */
  lemma {:induction false} AttemptsBounded(opens: nat -> bool, start: nat, budget: int)
    ensures AttemptsMade(opens, start, budget) <= (if budget <= 0 then 0 else budget)
    decreases budget
  {
    if budget > 0 && !opens(start) {
      AttemptsBounded(opens, start + 1, budget - 1);
    }
  }

  /** The port ends open exactly when one of the first `budget` attempts succeeds. */
  lemma {:induction false} OpensWithinIff(opens: nat -> bool, start: nat, budget: int)
    ensures OpensWithin(opens, start, budget) <==> exists a: nat :: start <= a < start + budget && opens(a)
    decreases budget
  {
    if budget > 0 {
      OpensWithinIff(opens, start + 1, budget - 1);
    }
  }

  /**
    When the port opens, the last attempt made is the first one that succeeded;
    when it does not, all `budget` attempts were made and all failed.
  */
  lemma {:induction false} AttemptsOutcome(opens: nat -> bool, start: nat, budget: int)
    ensures OpensWithin(opens, start, budget) ==>
              && AttemptsMade(opens, start, budget) >= 1
              && opens(start + AttemptsMade(opens, start, budget) - 1)
              && forall a: nat :: start <= a < start + AttemptsMade(opens, start, budget) - 1 ==> !opens(a)
    ensures !OpensWithin(opens, start, budget) ==>
              && AttemptsMade(opens, start, budget) == (if budget <= 0 then 0 else budget)
              && forall a: nat :: start <= a < start + budget ==> !opens(a)
    decreases budget
  {
    if budget > 0 && !opens(start) {
      AttemptsOutcome(opens, start + 1, budget - 1);
    }
  }

  const INT32_MIN: int := -0x8000_0000
  const INT32_MAX: int := 0x7fff_ffff

  /** C#'s unchecked `x + 1` on an `int`: wraps from `int.MaxValue` to `int.MinValue`. */
  function Int32Increment(x: int): (r: int)
    requires INT32_MIN <= x <= INT32_MAX
    ensures INT32_MIN <= r <= INT32_MAX
    ensures (r - (x + 1)) % 0x1_0000_0000 == 0
  {
    if x == INT32_MAX then INT32_MIN else x + 1
  }

  /**
    The `int tryCount` of both retry loops as written: 1 before any attempt, and
    advanced by the unchecked `tryCount++` after each failed one.
  */
  function TryCountAfter(failures: nat): (r: int)
    ensures INT32_MIN <= r <= INT32_MAX
  {
    if failures == 0 then 1 else Int32Increment(TryCountAfter(failures - 1))
  }

  /** Below `int.MaxValue` failures the counter is exact. */
  lemma {:induction false} TryCountNoWrap(failures: nat)
    requires failures < INT32_MAX
    ensures TryCountAfter(failures) == failures + 1
  {
    if failures > 0 {
      TryCountNoWrap(failures - 1);
    }
  }

  /**
    While fewer than `int.MaxValue` attempts have failed, the written guard
    `tryCount <= maxRetries` holds exactly when fewer than `maxRetries` attempts
    failed, which is the budget `AttemptsMade` and `OpensWithin` count.
  */
  lemma TryCountGuard(maxRetries: int, failures: nat)
    requires maxRetries <= INT32_MAX && failures < INT32_MAX
    ensures TryCountAfter(failures) <= maxRetries <==> failures < maxRetries
  {
    TryCountNoWrap(failures);
  }

  /**
    With `maxRetries == int.MaxValue` the written guard never fails: after
    `int.MaxValue` failed attempts `tryCount` wraps to `int.MinValue`, and no
    value of the counter exceeds `int.MaxValue`, so the loop retries for ever on
    a port that never opens, instead of stopping after `maxRetries` attempts.
  */
  lemma TryCountWraps()
    ensures TryCountAfter(INT32_MAX) == INT32_MIN
    ensures forall failures: nat :: TryCountAfter(failures) <= INT32_MAX
  {
    TryCountNoWrap(INT32_MAX - 1);
  }
}
