/** The response-cap ladder every read tool renders through. */
module Render {
  import opened Wrappers

  const LADDER_STEPS := 8

  /** A result that fits, the steps that were applied to it, and its size. */
  datatype Finished<S> = Finished(value: S, steps: seq<string>, bytes: nat)

  function StepName(step: nat): string {
    if step == 0 then "bodies_dropped" else "page_halved"
  }

  function StepNames(steps: nat): (names: seq<string>)
    ensures |names| == steps
  {
    seq(steps, i requires 0 <= i < steps => StepName(i))
  }

  /** The first rung that fits, from `step` on; failing that, the last one tried. */
  function Ladder<S>(cap: nat, size: S -> nat, shrink: (nat, S) -> Option<S>, s: S, step: nat): (r: Result<(S, nat), S>)
    requires step <= LADDER_STEPS
    ensures r.Ok? ==> size(r.value.0) <= cap
    ensures r.Err? ==> size(r.error) > cap
    decreases LADDER_STEPS - step
  {
    if size(s) <= cap then Ok((s, step))
    else if step == LADDER_STEPS then Err(s)
    else
      match shrink(step, s)
      case None => Err(s)
      case Some(smaller) => Ladder(cap, size, shrink, smaller, step + 1)
  }

  method Finish<S>(cap: nat, size: S -> nat, shrink: (nat, S) -> Option<S>, structured: S)
    returns (r: Result<Finished<S>, S>)
    ensures match Ladder(cap, size, shrink, structured, 0)
            case Err(last) => r == Err(last)
            case Ok((value, step)) => r == Ok(Finished(value, StepNames(step), size(value)))
  {
    var current := structured;
    var steps: seq<string> := [];
    var bytes := size(current);
    var step: nat := 0;
    while bytes > cap && step < LADDER_STEPS
      invariant step <= LADDER_STEPS && bytes == size(current) && steps == StepNames(step)
      invariant Ladder(cap, size, shrink, current, step) == Ladder(cap, size, shrink, structured, 0)
      decreases LADDER_STEPS - step
    {
      var smaller := shrink(step, current);
      if smaller.None? {
        return Err(current);
      }
      current := smaller.value;
      steps := steps + [StepName(step)];
      step := step + 1;
      bytes := size(current);
    }
    if bytes > cap {
      return Err(current);
    }
    return Ok(Finished(current, steps, bytes));
  }

  /** The result after so many steps, if there are so many. */
  function Rung<S>(shrink: (nat, S) -> Option<S>, s: S, step: nat, n: nat): Option<S>
    decreases n
  {
    if n == 0 then Some(s)
    else
      match shrink(step, s)
      case None => None
      case Some(smaller) => Rung(shrink, smaller, step + 1, n - 1)
  }

  /** What fits is delivered as it is; otherwise what is settled on is the first rung that
      fits, of eight, and every one before it was too large. */
  lemma {:induction false} FirstThatFits<S>(
      cap: nat, size: S -> nat, shrink: (nat, S) -> Option<S>, s: S, step: nat)
    requires step <= LADDER_STEPS
    ensures size(s) <= cap ==> Ladder(cap, size, shrink, s, step) == Ok((s, step))
    ensures match Ladder(cap, size, shrink, s, step)
            case Ok((value, last)) =>
              && step <= last <= LADDER_STEPS && Rung(shrink, s, step, last - step) == Some(value)
              && forall n | 0 <= n < last - step ::
                   Rung(shrink, s, step, n).Some? && size(Rung(shrink, s, step, n).value) > cap
            case Err(_) =>
              forall n | 0 <= n <= LADDER_STEPS - step && Rung(shrink, s, step, n).Some? ::
                size(Rung(shrink, s, step, n).value) > cap
    decreases LADDER_STEPS - step
  {
    if size(s) > cap && step < LADDER_STEPS && shrink(step, s).Some? {
      var smaller := shrink(step, s).value;
      FirstThatFits(cap, size, shrink, smaller, step + 1);
      assert forall n | n > 0 :: Rung(shrink, s, step, n) == Rung(shrink, smaller, step + 1, n - 1);
    }
  }
}
