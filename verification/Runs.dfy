/** Runs of a state machine given by its step relation. */
module Runs {

  ghost predicate Run<S(!new), E>(step: (S, E, S) -> bool, s: S, es: seq<E>, t: S)
    decreases |es|
  {
    if es == [] then s == t else exists m :: step(s, es[0], m) && Run(step, m, es[1..], t)
  }

  /** What the first state has and every step keeps, the last state has. */
  lemma {:induction false} RunInduction<S(!new), E(!new)>(step: (S, E, S) -> bool, inv: S -> bool, s: S, es: seq<E>, t: S)
    requires Run(step, s, es, t) && inv(s)
    requires forall a, e, b :: inv(a) && step(a, e, b) ==> inv(b)
    ensures inv(t)
    decreases |es|
  {
    if es != [] {
      var m :| step(s, es[0], m) && Run(step, m, es[1..], t);
      RunInduction(step, inv, m, es[1..], t);
    }
  }

  /** Runs compose. */
  lemma {:induction false} RunThen<S(!new), E>(step: (S, E, S) -> bool, s: S, es: seq<E>, t: S, fs: seq<E>, u: S)
    requires Run(step, s, es, t) && Run(step, t, fs, u)
    ensures Run(step, s, es + fs, u)
    decreases |es|
  {
    if es == [] {
      assert es + fs == fs;
    } else {
      var m :| step(s, es[0], m) && Run(step, m, es[1..], t);
      RunThen(step, m, es[1..], t, fs, u);
      assert (es + fs)[0] == es[0] && (es + fs)[1..] == es[1..] + fs;
    }
  }

  /** A run can be extended by one step. */
  lemma RunSnoc<S(!new), E>(step: (S, E, S) -> bool, s: S, es: seq<E>, t: S, e: E, u: S)
    requires Run(step, s, es, t) && step(t, e, u)
    ensures Run(step, s, es + [e], u)
  {
    assert Run(step, u, [], u);
    assert [e][1..] == [];
    assert Run(step, t, [e], u);
    RunThen(step, s, es, t, [e], u);
  }
}
