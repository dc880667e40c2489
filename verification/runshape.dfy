/**
 * How many gate calls a whole run of the editor's simulation makes: when the
 * first trial gets through every item, each of the trials does, so the run's
 * schedule holds one call per item per trial.
 */
module RunShape {
  import opened Wrappers
  import opened Canvas
  import opened DataModel

  /** When no call throws, n trials make exactly one call per item each. */
  lemma ScheduleShape(items: seq<Element>, parse: string -> Option<real>, toRad: real -> real, n: nat)
    requires AllItems(items) && Plan(items, parse, toRad, 0).error.None?
    ensures |Schedule(items, parse, toRad, n)| == n * |items|
  {
    forall t: nat | t < n
      ensures |Plan(items, parse, toRad, t).calls| == |items|
    {
      PlanLength(items, parse, toRad, t);
    }
    ConcatLength((t: nat) => Plan(items, parse, toRad, t).calls, n, |items|);
  }

  /** When no call throws, every trial makes one call per item. */
  lemma PlanLength(items: seq<Element>, parse: string -> Option<real>, toRad: real -> real, t: nat)
    requires AllItems(items) && Plan(items, parse, toRad, 0).error.None?
    ensures |Plan(items, parse, toRad, t).calls| == |items|
  {
    PlanTrialFree(items, parse, toRad, 0, t);
  }
}
