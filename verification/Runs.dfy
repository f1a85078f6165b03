/** Accounting for the calls of a run as it goes along. */
module Runs {
  import opened Cloud
  import opened Plan

  /** From state s with log l to state s' with log l', only calls the run may make were made. */
  predicate Ran(run: Run, s: State, l: seq<Call>, s': State, l': seq<Call>)
    requires run.IsSound()
  {
    |l| <= |l'| && l'[..|l|] == l && Permitted(run, s, l'[|l|..]) && s' == ApplyAll(s, l'[|l|..])
  }

  lemma SoundRun(p: Plan)
    requires Sound(p)
    ensures Ensure(p).IsSound() && |p.groups| == |p.listeners| && Proper(p)
  {}

  /** The run is made for the plan: it follows the plan if that is sound, or is just any run for its owner. */
  ghost predicate For(run: Run, p: Plan) {
    Proper(p) && run.IsSound() && (run == Ensure(p) || run == Touch(p.owner))
  }

  lemma RunsFor(run: Run, p: Plan)
    requires For(run, p)
    ensures run.IsSound() && run.Owner() == p.owner && Proper(p) && |p.groups| == |p.listeners|
    ensures run.Ensure? ==> run == Ensure(p) && Sound(p)
    ensures !run.Ensure? ==> run == Touch(p.owner)
  {}

  /** A planned call is allowed either way. */
  lemma PlannedIsAllowed(run: Run, p: Plan, s: State, c: Call)
    requires For(run, p) && |p.groups| == |p.listeners| && MayEnsure(p, s, c)
    ensures run.IsSound() && run.Allows(s, c)
  {
    hide MayEnsure, MayTouch;
    PlannedCallIsTouch(p, s, c);
  }

  lemma RanNothing(run: Run, s: State, l: seq<Call>)
    requires run.IsSound()
    ensures Ran(run, s, l, s, l)
  {}

  /** A call that may be made keeps the account, whether it was made or failed. */
  lemma RanCall(run: Run, s: State, l: seq<Call>, s1: State, l1: seq<Call>, c: Call, ok: bool, s2: State, l2: seq<Call>)
    requires run.IsSound() && Ran(run, s, l, s1, l1) && run.Allows(s1, c) && Issued(s1, l1, c, ok, s2, l2)
    ensures Ran(run, s, l, s2, l2)
  {
    hide Apply, Run.Allows;
    if l2 == l1 + [c] && s2 == Apply(s1, c) {
      var calls := l2[|l|..];
      assert calls[..|calls| - 1] == l1[|l|..] && calls[|calls| - 1] == c;
      assert l2[..|l|] == l1[..|l|];
    }
  }

  lemma {:induction false} PermittedConcat(run: Run, s: State, a: seq<Call>, b: seq<Call>)
    requires run.IsSound() && Permitted(run, s, a) && Permitted(run, ApplyAll(s, a), b)
    ensures Permitted(run, s, a + b) && ApplyAll(s, a + b) == ApplyAll(ApplyAll(s, a), b)
    decreases |b|
  {
    hide Apply, Run.Allows;
    if b == [] {
      assert a + b == a;
    } else {
      PermittedConcat(run, s, a, b[..|b| - 1]);
      assert (a + b)[..|a + b| - 1] == a + b[..|b| - 1];
    }
  }

  lemma RanOn(run: Run, s: State, l: seq<Call>, s1: State, l1: seq<Call>, s2: State, l2: seq<Call>)
    requires run.IsSound() && Ran(run, s, l, s1, l1) && Ran(run, s1, l1, s2, l2)
    ensures Ran(run, s, l, s2, l2)
  {
    hide Permitted, ApplyAll, Run.IsSound;
    PermittedConcat(run, s, l1[|l|..], l2[|l1|..]);
    assert l2[|l|..] == l1[|l|..] + l2[|l1|..];
    assert l2[..|l|] == l1[..|l|];
  }

  lemma RanKeepsInv(run: Run, s: State, l: seq<Call>, s': State, l': seq<Call>)
    requires run.IsSound() && !run.Touch? && Inv(run.Owner(), s) && Ran(run, s, l, s', l')
    ensures Inv(run.Owner(), s') && Foreign(run.Owner(), s') == Foreign(run.Owner(), s)
  {
    hide Inv, Foreign, Permitted;
    var calls := l'[|l|..];
    PrefixesSafe(run, s, calls, |calls|);
    assert calls[..|calls|] == calls;
  }

  /** Whatever the run, it counts as one that just touches its owner's objects, and it is harmless. */
  lemma RanIsHarmless(run: Run, s: State, l: seq<Call>, s': State, l': seq<Call>)
    requires run.IsSound() && Safe(s) && Ran(run, s, l, s', l')
    ensures Ran(Touch(run.Owner()), s, l, s', l') && Safe(s') && Foreign(run.Owner(), s') == Foreign(run.Owner(), s)
  {
    hide Safe, Foreign, Permitted;
    var calls := l'[|l|..];
    PermittedIsTouch(run, s, calls);
    EveryRunIsHarmless(run, s, calls, |calls|);
    assert calls[..|calls|] == calls;
  }
}
