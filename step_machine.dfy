/** The wizard's step counter: steps `1..n`, moved by one at a time by "Next" and "Previous".
    Both wizards (`ConsularApplication`, 4 steps, and `SkylaneBooking`, 12 steps) use it. */
module StepMachine {

  /** `handleNext`: one step forward unless already on the last step. */
  function Next(step: int, n: int): int
  {
    if step < n then step + 1 else step
  }

  /** `handlePrevious`: one step back unless already on the first step. */
  function Previous(step: int): int
  {
    if step > 1 then step - 1 else step
  }

  /** What a move does: forward by exactly one below the last step, a no-op on it, and
      symmetrically for "Previous"; neither ever leaves `[1, n]` nor skips a step. */
  lemma NextPreviousMoves(step: int, n: int)
    requires 1 <= step <= n
    ensures step < n ==> Next(step, n) == step + 1
    ensures step == n ==> Next(step, n) == step
    ensures step > 1 ==> Previous(step) == step - 1
    ensures step == 1 ==> Previous(step) == step
    ensures 1 <= Next(step, n) <= n && 1 <= Previous(step) <= n
    ensures step < n ==> Previous(Next(step, n)) == step
    ensures step > 1 ==> Next(Previous(step), n) == step
  {
  }

  datatype Move = Forward | Back

  function Apply(step: int, n: int, m: Move): int
  {
    match m
    case Forward => Next(step, n)
    case Back => Previous(step)
  }

  /** The step reached after a sequence of navigation clicks. */
  function Run(step: int, n: int, moves: seq<Move>): int
    decreases |moves|
  {
    if moves == [] then step else Run(Apply(step, n, moves[0]), n, moves[1..])
  }

  /** Starting anywhere in `[1, n]`, any sequence of clicks stays in `[1, n]`. */
  lemma {:induction false} RunStaysInRange(step: int, n: int, moves: seq<Move>)
    requires 1 <= step <= n
    ensures 1 <= Run(step, n, moves) <= n
    decreases |moves|
  {
    if moves != [] {
      NextPreviousMoves(step, n);
      RunStaysInRange(Apply(step, n, moves[0]), n, moves[1..]);
    }
  }

  function Forwards(k: nat): (ms: seq<Move>)
    ensures |ms| == k && forall i :: 0 <= i < k ==> ms[i] == Forward
  {
    if k == 0 then [] else [Forward] + Forwards(k - 1)
  }

  /** `k` clicks on "Next" from `step` reach `min(step + k, n)`: every step is visited in order
      and the last one is terminal. */
  lemma {:induction false} RunForwards(step: int, n: int, k: nat)
    requires 1 <= step <= n
    ensures Run(step, n, Forwards(k)) == if step + k <= n then step + k else n
    decreases k
  {
    if k > 0 {
      assert Forwards(k)[1..] == Forwards(k - 1);
      RunForwards(Next(step, n), n, k - 1);
    }
  }

  /** A step indicator is "active" when it is the current step. */
  predicate IsActive(current: int, id: int) { current == id }

  /** A step indicator is "completed" when the current step is past it. */
  predicate IsCompleted(current: int, id: int) { current > id }

  /** The step ids `1..n` in order, as the step tables list them. */
  function StepIds(n: nat): (ids: seq<int>)
    ensures |ids| == n && forall i :: 0 <= i < n ==> ids[i] == i + 1
  {
    seq(n, i => i + 1)
  }

  /** How many of the indicators `ids` are drawn as active. */
  function ActiveCount(current: int, ids: seq<int>): nat
  {
    if ids == [] then 0
    else (if IsActive(current, ids[0]) then 1 else 0) + ActiveCount(current, ids[1..])
  }

  predicate Distinct(ids: seq<int>)
  {
    forall i, j :: 0 <= i < j < |ids| ==> ids[i] != ids[j]
  }

  lemma {:induction false} ActiveCountDistinct(current: int, ids: seq<int>)
    requires Distinct(ids)
    ensures ActiveCount(current, ids) == if current in ids then 1 else 0
  {
    if ids != [] {
      ActiveCountDistinct(current, ids[1..]);
      assert ids == [ids[0]] + ids[1..];
      if current == ids[0] {
        assert current !in ids[1..];
      }
    }
  }

  /** On a wizard of `n` steps, exactly one indicator is active, and no indicator is both
      active and completed. */
  lemma ExactlyOneActive(current: int, n: nat)
    requires 1 <= current <= n
    ensures ActiveCount(current, StepIds(n)) == 1
    ensures forall id :: !(IsActive(current, id) && IsCompleted(current, id))
  {
    ActiveCountDistinct(current, StepIds(n));
    assert StepIds(n)[current - 1] == current;
  }
}
