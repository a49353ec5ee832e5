/** Finite stretches of a run, from any state: what a procedure does when it is followed step by step. */
module Trace {
  import opened Types
  import opened QueueInvariant
  import opened Safety
  import opened System
  import opened LinkInvariant

  /** Where these steps lead from `s`; None when one of them cannot be taken. */
  ghost function After(s: Sys, steps: seq<Step>): Option<Sys> {
    if steps == [] then Some(s)
    else
      var mid := After(s, steps[..|steps| - 1]);
      var step := steps[|steps| - 1];
      if mid.Some? && Enabled(mid.value, step) then Some(Next(mid.value, step)) else None
  }

  lemma Extend(s: Sys, steps: seq<Step>, mid: Sys, step: Step)
    requires After(s, steps) == Some(mid) && Inv(mid) && Enabled(mid, step)
    ensures var t := Next(mid, step);
      && After(s, steps + [step]) == Some(t) && Inv(t) && Aligned(t.db) && Grows(mid.db, t.db)
      && t.cfg == mid.cfg && |t.workers| == |mid.workers|
  {
    hide Inv, Next, Enabled;
    StepKeepsInv(mid, step);
    SameConfig(mid, step);
    InvAligned(Next(mid, step));
    assert (steps + [step])[..|steps|] == steps;
  }

  /** A stretch, preceded by a step. */
  lemma {:induction false} Prepend(s: Sys, step: Step, steps: seq<Step>)
    requires Enabled(s, step)
    ensures After(s, [step] + steps) == After(Next(s, step), steps)
  {
    hide Enabled, Next;
    var more := [step] + steps;
    if steps == [] {
      assert more == [step] && more[..0] == [];
    } else {
      var n := |steps| - 1;
      Prepend(s, step, steps[..n]);
      assert more[..|more| - 1] == [step] + steps[..n];
    }
  }

  lemma Begin(s: Sys)
    ensures After(s, []) == Some(s)
  {}

  /** The stretch, longer by a step, and the state it then leads to. */
  lemma Take(s: Sys, steps: seq<Step>, mid: Sys, step: Step) returns (more: seq<Step>, t: Sys)
    requires After(s, steps) == Some(mid) && Inv(mid) && Enabled(mid, step)
    ensures t == Next(mid, step) && more == steps + [step] && After(s, more) == Some(t)
    ensures Inv(t) && Aligned(t.db) && t.cfg == mid.cfg && |t.workers| == |mid.workers|
  {
    Extend(s, steps, mid, step);
    more, t := steps + [step], Next(mid, step);
  }

  lemma InvAligned(s: Sys)
    requires Inv(s)
    ensures Aligned(s.db)
  {}

  /** A run is a stretch from its first state. */
  lemma {:induction false} RunIsStretch(ss: seq<Sys>, steps: seq<Step>, i: nat)
    requires IsRun(ss, steps) && i < |ss|
    ensures After(ss[0], steps[..i]) == Some(ss[i])
  {
    hide Next, Enabled;
    if i > 0 {
      RunIsStretch(ss, steps, i - 1);
      assert Enabled(ss[i - 1], steps[i - 1]) && ss[i - 1 + 1] == Next(ss[i - 1], steps[i - 1]);
      assert steps[..i][..i - 1] == steps[..i - 1];
    }
  }

  /** And a stretch from an initial state is a run. */
  lemma {:induction false} StretchIsRun(s0: Sys, steps: seq<Step>) returns (ss: seq<Sys>)
    requires Initial(s0) && After(s0, steps).Some?
    ensures IsRun(ss, steps) && |ss| == |steps| + 1 && ss[0] == s0 && ss[|ss| - 1] == After(s0, steps).value
  {
    hide Next, Enabled, Initial;
    if steps == [] {
      ss := [s0];
    } else {
      var n := |steps| - 1;
      var before := StretchIsRun(s0, steps[..n]);
      ss := before + [After(s0, steps).value];
      forall i | 0 <= i < |steps|
        ensures Enabled(ss[i], steps[i]) && ss[i + 1] == Next(ss[i], steps[i])
      {
        if i < n {
          assert steps[..n][i] == steps[i];
          assert Enabled(before[i], steps[..n][i]) && before[i + 1] == Next(before[i], steps[..n][i]);
        }
      }
    }
  }
}
