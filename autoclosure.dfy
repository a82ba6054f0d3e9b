/**
 * Operators and functions that take a deferred argument (a closure, or an expression that
 * `@autoclosure` wraps into one). `??`, `&&` and `||` evaluate the closure only on one
 * branch; `logIfTrue` and `logIfTrue2` evaluate it exactly once and print only when it
 * returns true. The closure is a `Thunk` object that counts how often it has been
 * invoked, so the contracts can say whether it ran.
 */
module Autoclosures {
  import opened Optionals

  /** A zero-argument closure returning `value`, with a count of its invocations. */
  class Thunk<T> {
    const value: T
    var calls: nat

    constructor (value: T)
      ensures this.value == value && calls == 0
    {
      this.value := value;
      calls := 0;
    }

    /** Invoking the closure: yields its value and counts one more call. */
    method Call() returns (r: T)
      modifies this`calls
      ensures r == value && calls == old(calls) + 1
    {
      r := value;
      calls := calls + 1;
    }
  }

  /** `??`: the wrapped value if there is one, otherwise the default, evaluated only then. */
  method Coalesce<T>(optional: Option<T>, defaultValue: Thunk<T>) returns (r: T)
    modifies defaultValue`calls
    ensures optional.Some? ==> r == optional.value && defaultValue.calls == old(defaultValue.calls)
    ensures optional.None? ==> r == defaultValue.value && defaultValue.calls == old(defaultValue.calls) + 1
    ensures r == optional.GetOr(defaultValue.value)
  {
    match optional
    case Some(value) =>
      r := value;
    case None =>
      r := defaultValue.Call();
  }

  /** `&&`: the right operand is evaluated exactly when the left one is true. */
  method And(lhs: bool, rhs: Thunk<bool>) returns (r: bool)
    modifies rhs`calls
    ensures r == (lhs && rhs.value)
    ensures rhs.calls == old(rhs.calls) + (if lhs then 1 else 0)
  {
    if lhs == true {
      r := rhs.Call();
    } else {
      r := false;
    }
  }

  /** `||`: the right operand is evaluated exactly when the left one is false. */
  method Or(lhs: bool, rhs: Thunk<bool>) returns (r: bool)
    modifies rhs`calls
    ensures r == (lhs || rhs.value)
    ensures rhs.calls == old(rhs.calls) + (if lhs then 0 else 1)
  {
    if lhs == false {
      r := rhs.Call();
    } else {
      r := true;
    }
  }

  /** `logIfTrue`: evaluates the predicate closure (`condition`) once; `printed` is the line it prints, if any. */
  method LogIfTrue(condition: Thunk<bool>) returns (printed: Option<string>)
    modifies condition`calls
    ensures condition.calls == old(condition.calls) + 1
    ensures printed == if condition.value then Some("true") else None
  {
    var holds := condition.Call();
    if holds {
      printed := Some("true");
    } else {
      printed := None;
    }
  }

  /** `logIfTrue2`, the `@autoclosure` variant: the same, with its own message. */
  method LogIfTrue2(condition: Thunk<bool>) returns (printed: Option<string>)
    modifies condition`calls
    ensures condition.calls == old(condition.calls) + 1
    ensures printed == if condition.value then Some("true 2") else None
  {
    var holds := condition.Call();
    if holds {
      printed := Some("true 2");
    } else {
      printed := None;
    }
  }

  /** `level ?? startLevel` with `level` nil and `startLevel` 1 gives 1, and the default is evaluated once. */
  method CurrentLevel() returns (currentLevel: int, defaultCalls: nat)
    ensures currentLevel == 1 && defaultCalls == 1
  {
    var level: Option<int> := None;
    var startLevel := new Thunk(1);
    currentLevel := Coalesce(level, startLevel);
    defaultCalls := startLevel.calls;
  }

  /**
   * `flag && flag2` and `flag || flag2` with `flag` false and `flag2` true: the conjunction
   * is false without evaluating `flag2`, the disjunction evaluates it once and is true.
   */
  method Practice() returns (conjunction: bool, conjunctionCalls: nat, disjunction: bool, disjunctionCalls: nat)
    ensures !conjunction && conjunctionCalls == 0
    ensures disjunction && disjunctionCalls == 1
  {
    var flag := false;
    var flag2 := new Thunk(true);
    conjunction := And(flag, flag2);
    conjunctionCalls := flag2.calls;
    var flag2Again := new Thunk(true);
    disjunction := Or(flag, flag2Again);
    disjunctionCalls := flag2Again.calls;
  }
}
