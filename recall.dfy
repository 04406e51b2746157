/**
 * The cursor arithmetic of the input recall buffer. The cursor is -1 while the
 * user is not recalling, and otherwise an index into the submitted inputs.
 */
module Recall {

  /** The cursor stays in range: -1, or an index of the buffer. */
  predicate InRange(len: nat, index: int) {
    -1 <= index < len
  }

  /** `Math.max`. */
  function Max(a: int, b: int): int {
    if a >= b then a else b
  }

  /** ArrowUp on a non-empty buffer. From -1 it goes to the newest entry. Otherwise it goes one entry older, stopping at the oldest. */
  function Up(len: nat, index: int): (r: int)
    requires len > 0 && InRange(len, index)
    ensures 0 <= r < len
  {
    if index == -1 then len - 1 else Max(0, index - 1)
  }

  /** ArrowDown while recalling. It goes one entry newer, and back to -1 past the newest. */
  function Down(len: nat, index: int): (r: int)
    requires 0 <= index < len
    ensures InRange(len, r)
  {
    if index + 1 >= len then -1 else index + 1
  }

  /** ArrowUp pressed `k` times in a row. */
  function UpTimes(len: nat, index: int, k: nat): (r: int)
    requires len > 0 && InRange(len, index)
    ensures InRange(len, r)
    decreases k
  {
    if k == 0 then index else UpTimes(len, Up(len, index), k - 1)
  }

  /** ArrowDown pressed `k` times in a row. Once the cursor is at -1, ArrowDown does nothing. */
  function DownTimes(len: nat, index: int, k: nat): (r: int)
    requires InRange(len, index)
    ensures InRange(len, r)
    decreases k
  {
    if k == 0 || index == -1 then index else DownTimes(len, Down(len, index), k - 1)
  }

  /** From an entry, `k` ArrowUp presses go `k` entries older, clamped at the oldest. */
  lemma {:induction false} UpTimesFrom(len: nat, index: nat, k: nat)
    requires index < len
    ensures UpTimes(len, index, k) == if index >= k then index - k else 0
    decreases k
  {
    if k > 0 {
      UpTimesFrom(len, Up(len, index), k - 1);
    }
  }

  /** From a fresh prompt, after `k >= 1` ArrowUp presses the cursor is on the k-th newest entry, clamped at the oldest. */
  lemma UpTimesFresh(len: nat, k: nat)
    requires len > 0 && k >= 1
    ensures UpTimes(len, -1, k) == if len >= k then len - k else 0
  {
    UpTimesFrom(len, len - 1, k - 1);
  }

  /** From an entry, `k` ArrowDown presses go `k` entries newer, or back to -1 once past the newest. */
  lemma {:induction false} DownTimesFrom(len: nat, index: nat, k: nat)
    requires index < len
    ensures DownTimes(len, index, k) == if index + k < len then index + k else -1
    decreases k
  {
    if k > 0 {
      var next := Down(len, index);
      if next == -1 {
        assert DownTimes(len, next, k - 1) == -1;
      } else {
        DownTimesFrom(len, next, k - 1);
      }
    }
  }

  /** ArrowDown undoes ArrowUp except at the oldest entry. From a fresh prompt, ArrowUp then ArrowDown returns to the fresh prompt. */
  lemma DownUndoesUp(len: nat, index: int)
    requires len > 0 && InRange(len, index) && index != 0
    ensures Down(len, Up(len, index)) == index
  {
  }
}
