/** Step indicators: a row of steps in which every step before the
    current index is done, the step at it is current and every step after
    it is pending. The repair-tracking timeline and the submission
    wizard's indicator both draw their steps this way. */
module Progress {

  datatype StepState = StepDone | StepCurrent | StepPending

  /** The state of the step at `index` when the current step is `current`:
      exactly one of done (`index < current`), current (`index ==
      current`) or pending (`index > current`). */
  function Classify(index: int, current: int): (s: StepState)
    ensures s == StepDone <==> index < current
    ensures s == StepCurrent <==> index == current
    ensures s == StepPending <==> index > current
  {
    if index < current then StepDone
    else if index == current then StepCurrent
    else StepPending
  }

  /** The states of steps `0 .. n-1`. */
  function Timeline(n: nat, current: int): (r: seq<StepState>)
    ensures |r| == n
    ensures forall i :: 0 <= i < n ==> r[i] == Classify(i, current)
  {
    seq(n, i requires 0 <= i < n => Classify(i, current))
  }

  function Repeat(s: StepState, n: nat): (r: seq<StepState>)
    ensures |r| == n && forall i :: 0 <= i < n ==> r[i] == s
  {
    seq(n, _ => s)
  }

  /** With a current step in range the row reads done, ..., done,
      current, pending, ..., pending: one current step, all earlier ones
      done, all later ones pending. */
  lemma TimelineShape(n: nat, current: int)
    requires 0 <= current < n
    ensures Timeline(n, current) == Repeat(StepDone, current) + [StepCurrent] + Repeat(StepPending, n - current - 1)
  {
    var t := Timeline(n, current);
    var u := Repeat(StepDone, current) + [StepCurrent] + Repeat(StepPending, n - current - 1);
    assert |t| == |u|;
    forall i | 0 <= i < n ensures t[i] == u[i] {
      if i < current {
        assert u[i] == StepDone;
      } else if i == current {
        assert u[i] == StepCurrent;
      } else {
        assert u[i] == (Repeat(StepPending, n - current - 1))[i - current - 1];
      }
    }
  }

  /** A current index of -1 (a status missing from the step list) leaves
      every step pending; one past the end leaves every step done. */
  lemma TimelineOutOfRange(n: nat)
    ensures Timeline(n, -1) == Repeat(StepPending, n)
    ensures Timeline(n, n) == Repeat(StepDone, n)
  {
  }
}
