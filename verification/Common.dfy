/** What several modules share. */
module Common {
  datatype Option<+T> = None | Some(value: T)

  function Min(a: int, b: int): int {
    if a < b then a else b
  }

  function Max(a: int, b: int): int {
    if a > b then a else b
  }

  /** What Python counts as white space. */
  predicate Blank(c: char) {
    || '\t' <= c <= '\r' || '\U{1c}' <= c <= ' ' || c == '\U{85}' || c == '\U{a0}' || c == '\U{1680}'
    || '\U{2000}' <= c <= '\U{200a}' || c == '\U{2028}' || c == '\U{2029}' || c == '\U{202f}'
    || c == '\U{205f}' || c == '\U{3000}'
  }

  /** What holds at the start and is kept by every step holds after `n` steps. */
  lemma {:induction false} StepByStep(holds: nat -> bool, n: nat)
    requires holds(0) && forall k: nat | k < n :: holds(k) ==> holds(k + 1)
    ensures holds(n)
  {
    if n > 0 {
      StepByStep(holds, n - 1);
    }
  }
}
