/** The few pieces of JavaScript number semantics the engines rely on, and the
    outcome shape every engine returns (src/shared/types/index.ts). Every
    quantity the engines compute from integers is modelled exactly: integers as
    `int`, the fractions the source writes as decimal literals as `real`. */
module Shared {

  /** `a % m` in JavaScript: the remainder has the sign of the dividend. */
  function JsRem(a: int, m: int): (r: int)
    requires m > 0
    ensures a >= 0 ==> 0 <= r < m
    ensures a <= 0 ==> -m < r <= 0
  {
    if a >= 0 then a % m else -((-a) % m)
  }

  /** `Math.round(x)`: the nearest integer, halves rounded towards +infinity. */
  function Round(x: real): (r: int)
    ensures x - 0.5 < r as real <= x + 0.5
  {
    (x + 0.5).Floor
  }

  /** `Math.max(lo, Math.min(hi, x))`. */
  function Clamp(x: int, lo: int, hi: int): (r: int)
    requires lo <= hi
    ensures lo <= r <= hi
    ensures lo <= x <= hi ==> r == x
    ensures x < lo ==> r == lo
    ensures x > hi ==> r == hi
  {
    if hi < x then hi else if x < lo then lo else x
  }

  /** `GameOutcome.result`. */
  datatype GameResult = Win | Loss | Push

  /** How a call ends without an outcome. */
  datatype Failure =
    | Rejected(message: string)  // `throw new Error(message)` after `validateInput` failed
    | TypeError                  // the source reads a property of `undefined` and throws
    | NoTermination              // a loop whose exit the draws never reach
    | NotModelled                // the source goes on with `undefined` entries; not followed here

  datatype Result<T> = Ok(value: T) | Err(failure: Failure)

  /** An optional field; in a computed quantity `None` stands for `NaN`. */
  datatype Option<T> = None | Some(get: T)
}
